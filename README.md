# Sunnytrail client: event model and endpoint

A Dafny model of the Python client library for the Sunnytrail analytics
service (`sunnytrail.py`). The library reports subscription events (a signup,
a payment, a cancellation) to a collection endpoint. The model covers the two
parts of it that are not I/O:

- **The event model.** `Action`, `Plan`, `EmptyPlan` and `Event`, with the
  convenience constructors `SignupAction`/`PayAction`/`CancelAction` and
  `SignupEvent`/`PayEvent`/`CancelEvent`, and the JSON-shaped documents their
  `to_hash` methods build. Every object is immutable after construction, so
  each one is a datatype value. A constructor that can raise (`Action` with an
  unknown name) is a function returning a `Result`. A document is a
  `map<string, Json>`, and a key is either present or absent; it is never
  `null`.
- **The endpoint.** `Sunnytrail.__init__` derives
  `<scheme>://<base_url>/messages?<urlencode({'apikey': key})>`. The scheme is
  `https` when `use_ssl` is set and `http` otherwise. The form encoding is
  Python 2's `urllib.urlencode`, which applies `quote_plus` to the name and to
  the value. Letters, digits and `_ . -` are kept, a space becomes `+`, and
  any other byte becomes `%XY` with upper-case hex digits. Python 2 strings are
  byte strings, so the key is a string whose characters all lie below 256.

Each operation has a partner, and lemmas connect the two:

- Each `to_hash` has a decoder (`ActionFromHash`, `PlanFromHash`,
  `EventFromHash`). A decoder accepts only documents that `to_hash` can
  produce, and the round-trip lemmas show that reading a document back
  returns the object it came from. So `to_hash` loses nothing and two events
  never share a document.
- `QuotePlus` has a decoder, `FormDecode`, and is proved injective.
- The endpoint has a parser, `ParseMessagesUrl`. It gives back the scheme, the
  base URL and the key. This works even when the base URL itself contains a
  `?`, because the encoded key never does.

Files: `wrappers.dfy` (Option, Result), `json.dfy` (the JSON value type),
`events.dfy` (module `Events`), `form_encoding.dfy` (module `FormEncoding`),
`client.dfy` (module `Client`).

## Model

| member | source | states |
|---|---|---|
| `Events.NewAction` | sunnytrail.py:105-114 | fails with the "Invalid action name" error exactly when the name is not `signup`, `pay` or `cancel`; otherwise keeps the name and the timestamp |
| `Events.SignupAction` | sunnytrail.py:128-130 | is what the `Action` constructor returns for `signup` at the given time |
| `Events.PayAction` | sunnytrail.py:132-134 | is what the `Action` constructor returns for `pay` at the given time |
| `Events.CancelAction` | sunnytrail.py:136-138 | is what the `Action` constructor returns for `cancel` at the given time |
| `Events.ActionToHash` | sunnytrail.py:122-126 | the document has exactly the keys `name` and `created`, holding the action's name and its integer timestamp |
| `Events.ActionFromHash` | sunnytrail.py:122-126 | a document it accepts is the `to_hash` of the action it returns |
| `Events.ActionHashRoundTrip` | sunnytrail.py:122-126 | reading an action's document back gives the action |
| `Events.IsRecurring` | sunnytrail.py:92-101 | holds exactly when the plan's document carries `recurring` |
| `Events.NewPlan` | sunnytrail.py:77-93 | keeps the name; the plan is recurring exactly when `recurring` is given, and keeps its value; an omitted price is 0 |
| `Events.PlanToHash` | sunnytrail.py:74-103 | the empty plan gives `{}`; a plan always gives `name` and `price`, gives `recurring` exactly when it is recurring, and no other key |
| `Events.PlanFromHash` | sunnytrail.py:95-103 | a document it accepts is the `to_hash` of the plan it returns |
| `Events.PlanHashRoundTrip` | sunnytrail.py:74-103 | reading a plan's document back gives the plan, so a plan and the empty plan never share a document |
| `Events.EventToHash` | sunnytrail.py:44-54 | always `name`, `email`, `action` (the action's document) and `plan` (the plan's document); `id` exactly when the id is not None; no other key |
| `Events.EventFromHash` | sunnytrail.py:44-54 | a document it accepts is the `to_hash` of the event it returns |
| `Events.EventHashRoundTrip` | sunnytrail.py:44-54 | reading an event's document back gives the event |
| `Events.EventToHashInjective` | sunnytrail.py:44-54 | two events with the same document are equal |
| `Events.SignupEvent` | sunnytrail.py:59-62 | keeps id, name, email and plan; its action is the `signup` action at the given time |
| `Events.PayEvent` | sunnytrail.py:64-67 | keeps id, name, email and plan; its action is the `pay` action at the given time |
| `Events.CancelEvent` | sunnytrail.py:69-72 | keeps id, name and email; its action is the `cancel` action at the given time; its plan's document is `{}` |
| `Events.CancelEventPlanIsEmpty` | sunnytrail.py:69-75 | a cancellation's document holds `{}` as its plan and `{name: cancel, created}` as its action |
| `Events.SignupWithDefaultPrice` | sunnytrail.py:59-62 | the full document of a signup with an id and a plan built without a price, whose price is 0.0 and which has no `recurring` key |
| `Events.PayEventPlanDocument` | sunnytrail.py:64-67 | a pay event for a plan priced 49 has the plan document `{name, price: 49.0}` |
| `FormEncoding.QuotePlus` | sunnytrail.py:27 | the encoding is at least as long as the key and at most three times as long, and uses only safe characters, `+` and `%` |
| `FormEncoding.QuotePlusExample` | sunnytrail.py:27 | `k y&` encodes as `k+y%26` |
| `FormEncoding.QuotePlusKeepsSafeText` | sunnytrail.py:27 | text made only of letters, digits and `_ . -` is left unchanged (so the name `apikey` stays as it is) |
| `FormEncoding.QuotePlusRoundTrip` | sunnytrail.py:27 | decoding the encoding of a byte string gives the byte string back |
| `FormEncoding.QuotePlusInjective` | sunnytrail.py:27 | two different keys never encode alike |
| `FormEncoding.UrlEncodeOne` | sunnytrail.py:27 | `urlencode` of one pair has `=` right after the encoded name and contains no `?`, `&` or `#` |
| `FormEncoding.UrlEncodeOneRoundTrip` | sunnytrail.py:27 | the one-pair query splits at its `=` and decodes back to the name and the value |
| `Client.NewSunnytrail` | sunnytrail.py:23-28 | keeps the key and the SSL flag; the stored base URL is the scheme-qualified one; the endpoint is that base URL, `/messages?` and the encoded `apikey` query |
| `Client.MessagesUrlScheme` | sunnytrail.py:25-27 | the endpoint starts with `https://` exactly when SSL is on, and with `http://` exactly when it is off |
| `Client.MessagesUrlRoundTrip` | sunnytrail.py:25-27 | parsing the endpoint gives back the SSL flag, the base URL and the key |
| `Client.MessagesUrlDeterminesConfig` | sunnytrail.py:23-27 | two clients with the same endpoint have the same key, base URL and SSL flag |
| `Client.DefaultSunnytrail` | sunnytrail.py:23 | with the default arguments it is the client built from base URL `api.thesunnytrail.com` with SSL on: the stored base URL is `https://api.thesunnytrail.com`, and the endpoint parses back to that base URL and the given key |

## Left out

- `Sunnytrail.send` (sunnytrail.py:30-34): it calls `FancyURLopener.open` with the endpoint and the dict `{'message': event.to_json()}` as POST data, then reads the response body and discards it. This is network I/O. The code does not classify HTTP statuses, so no status-to-error mapping is modelled.
- `SunnytrailOpener` (sunnytrail.py:13-14) and `SunnytrailException` (sunnytrail.py:16-18): these are used only by the transport, or not at all.
- `Event.to_json` (sunnytrail.py:56-57): it is a call to `simplejson.dumps`, a foreign library. The model stops at the structured document.
- `main` (sunnytrail.py:140-144): it does nothing.
- Defaulting `created` to `time()` (sunnytrail.py:107): this reads the wall clock. `created` is always a supplied integer here.
- `Events.NewAction`: does not model `int(created)` truncating a float timestamp, because floating point is out of scope. `created` is an `int` from the start.
- `Events.NewPlan`: models `price` as a `real` and `None` as "argument omitted". This leaves out `float(price)` raising on a non-numeric argument, `float(None)` raising, and binary floating-point rounding. It also leaves out `int(recurring)` truncating or raising, because `recurring` is an `int` from the start.
- `Events.EventToHash`: Python accepts any objects for the id, name, email, action and plan (duck typing). The model types them as strings, a valid `Action` and a `Plan`/`EmptyPlan`.
- `FormEncoding.UrlEncodeOne`: models `urlencode` for a single pair only, which is the only form the client uses. A dictionary with several entries, joined by `&` in dictionary order, is not modelled.
- `Client.NewSunnytrail`: the key is a byte string, as a Python 2 `str` is; characters 128 to 255 in the model stand for the bytes of a `str` key only. A `unicode` key with a non-ASCII character (above 127) makes `urlencode` raise, because it calls `str()` on the value with the ASCII codec; that error path is not modelled.
- The property accessors (sunnytrail.py:83-91, 116-120) are the datatypes' fields.
