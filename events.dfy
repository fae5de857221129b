/**
 * The event model of the Sunnytrail client: actions, plans and events, and the
 * JSON-shaped documents (`to_hash`) they turn into.
 *
 * Every object of the source is immutable after construction, so each one is a
 * datatype value here; a constructor that can raise becomes a function returning
 * a `Result`. Next to each `to_hash` stands a decoder that reads the document
 * back; the round-trip lemmas show that no information is lost and that the
 * decoders accept exactly the documents `to_hash` can produce.
 */
module Events {
  import opened Wrappers
  import opened Json

  // ---------------------------------------------------------------------------
  // Actions
  // ---------------------------------------------------------------------------

  /** The closed set of action kinds. */
  predicate IsActionName(name: string) {
    name == "signup" || name == "pay" || name == "cancel"
  }

  /** An action: its kind and its creation time (a Unix timestamp). */
  datatype Action = Action(name: string, created: int)

  /** Only actions with a recognised kind can be built. */
  type ValidAction = a: Action | IsActionName(a.name) witness Action("signup", 0)

  /** The `ValueError` an action constructor raises. */
  datatype ConfigError = InvalidActionName(message: string)

  const INVALID_ACTION_MESSAGE: string :=
    "Invalid action name. Expected values: signup, pay or cancel"

  /**
   * The `Action` constructor: fails exactly when the name is not one of the
   * three kinds, and otherwise keeps the name and the timestamp as given.
   */
  function NewAction(name: string, created: int): (r: Result<ValidAction, ConfigError>)
    ensures r.Ok? <==> name in {"signup", "pay", "cancel"}
    ensures r.Ok? ==> r.value.name == name && r.value.created == created
    ensures r.Err? ==> r.error == InvalidActionName(INVALID_ACTION_MESSAGE)
  {
    if IsActionName(name) then Ok(Action(name, created))
    else Err(InvalidActionName(INVALID_ACTION_MESSAGE))
  }

  /** `SignupAction`: the base constructor with the kind fixed to signup. */
  function SignupAction(created: int): (a: ValidAction)
    ensures NewAction("signup", created) == Ok(a)
  {
    Action("signup", created)
  }

  /** `PayAction`: the base constructor with the kind fixed to pay. */
  function PayAction(created: int): (a: ValidAction)
    ensures NewAction("pay", created) == Ok(a)
  {
    Action("pay", created)
  }

  /** `CancelAction`: the base constructor with the kind fixed to cancel. */
  function CancelAction(created: int): (a: ValidAction)
    ensures NewAction("cancel", created) == Ok(a)
  {
    Action("cancel", created)
  }

  /** `Action.to_hash`: exactly the two keys `name` and `created`. */
  function ActionToHash(a: ValidAction): (h: Object)
    ensures h.Keys == {"name", "created"}
    ensures h["name"] == JString(a.name) && h["created"] == JInt(a.created)
  {
    map["name" := JString(a.name), "created" := JInt(a.created)]
  }

  /**
   * Reads an action document back. It accepts only documents that
   * `ActionToHash` produces.
   */
  function ActionFromHash(h: Object): (r: Option<ValidAction>)
    ensures r.Some? ==> ActionToHash(r.value) == h
  {
    if h.Keys != {"name", "created"} then None
    else match (h["name"], h["created"])
      case (JString(name), JInt(created)) =>
        if IsActionName(name) then Some(Action(name, created)) else None
      case _ => None
  }

  lemma ActionHashRoundTrip(a: ValidAction)
    ensures ActionFromHash(ActionToHash(a)) == Some(a)
  {
  }

  // ---------------------------------------------------------------------------
  // Plans
  // ---------------------------------------------------------------------------

  /**
   * A subscription plan, or the empty plan that cancellation events carry.
   * `recurring` is `None` when the plan is not recurring.
   */
  datatype Plan =
    | Plan(name: string, price: real, recurring: Option<int>)
    | EmptyPlan

  /** `Plan.is_recurring`: decides whether the plan's document carries `recurring`. */
  predicate IsRecurring(p: Plan): (b: bool)
    requires p.Plan?
    ensures b <==> "recurring" in PlanToHash(p)
  {
    p.recurring.Some?
  }

  /**
   * The `Plan` constructor. An omitted argument is `None`: an omitted price
   * becomes 0, an omitted recurrence leaves the plan non-recurring.
   */
  function NewPlan(name: string, price: Option<real>, recurring: Option<int>): (p: Plan)
    ensures p.Plan? && p.name == name
    ensures IsRecurring(p) <==> recurring.Some?
    ensures recurring.Some? ==> p.recurring.value == recurring.value
    ensures price.Some? ==> p.price == price.value
    ensures price.None? ==> p.price == 0.0
  {
    Plan(name, if price.Some? then price.value else 0.0, recurring)
  }

  /**
   * `Plan.to_hash` and `EmptyPlan.to_hash`: an empty plan gives the empty
   * object; a plan always gives `name` and `price`, and gives `recurring`
   * exactly when it is recurring (the key is then absent, not null).
   */
  function PlanToHash(p: Plan): (h: Object)
    ensures p.EmptyPlan? ==> h == map[]
    ensures p.Plan? ==> "name" in h && h["name"] == JString(p.name)
    ensures p.Plan? ==> "price" in h && h["price"] == JNumber(p.price)
    ensures p.Plan? ==> ("recurring" in h <==> p.recurring.Some?)
    ensures p.Plan? && p.recurring.Some? ==> h["recurring"] == JInt(p.recurring.value)
    ensures h.Keys <= {"name", "price", "recurring"}
  {
    match p
    case EmptyPlan => map[]
    case Plan(name, price, recurring) =>
      var fields := map["name" := JString(name), "price" := JNumber(price)];
      if recurring.Some? then fields["recurring" := JInt(recurring.value)] else fields
  }

  /**
   * Reads a plan document back: the empty object is the empty plan, anything
   * else must be a plan document with a string name, a number price and
   * perhaps an integer `recurring`.
   */
  function PlanFromHash(h: Object): (r: Option<Plan>)
    ensures r.Some? ==> PlanToHash(r.value) == h
  {
    if h == map[] then Some(EmptyPlan)
    else if !("name" in h && "price" in h) then None
    else if !(h.Keys <= {"name", "price", "recurring"}) then None
    else match (h["name"], h["price"])
      case (JString(name), JNumber(price)) =>
        if "recurring" !in h then Some(Plan(name, price, None))
        else if h["recurring"].JInt? then Some(Plan(name, price, Some(h["recurring"].i)))
        else None
      case _ => None
  }

  lemma PlanHashRoundTrip(p: Plan)
    ensures PlanFromHash(PlanToHash(p)) == Some(p)
  {
  }

  // ---------------------------------------------------------------------------
  // Events
  // ---------------------------------------------------------------------------

  /** An event: an optional external id, the user's name and email, an action and a plan. */
  datatype Event = Event(id: Option<string>, name: string, email: string, action: ValidAction, plan: Plan)

  /**
   * `Event.to_hash`: always `name`, `email`, the action's document and the
   * plan's document; `id` exactly when the event has one.
   */
  function EventToHash(e: Event): (h: Object)
    ensures {"name", "email", "action", "plan"} <= h.Keys <= {"name", "email", "action", "plan", "id"}
    ensures "id" in h <==> e.id.Some?
    ensures h["name"] == JString(e.name) && h["email"] == JString(e.email)
    ensures h["action"] == JObject(ActionToHash(e.action))
    ensures h["plan"] == JObject(PlanToHash(e.plan))
    ensures e.id.Some? ==> h["id"] == JString(e.id.value)
  {
    var fields := map[
      "name" := JString(e.name),
      "email" := JString(e.email),
      "action" := JObject(ActionToHash(e.action)),
      "plan" := JObject(PlanToHash(e.plan))
    ];
    if e.id.Some? then fields["id" := JString(e.id.value)] else fields
  }

  /** Reads an event document back, accepting only what `EventToHash` produces. */
  function EventFromHash(h: Object): (r: Option<Event>)
    ensures r.Some? ==> EventToHash(r.value) == h
  {
    if !("name" in h && "email" in h && "action" in h && "plan" in h) then None
    else if !(h.Keys <= {"name", "email", "action", "plan", "id"}) then None
    else match (h["name"], h["email"], h["action"], h["plan"])
      case (JString(name), JString(email), JObject(ah), JObject(ph)) =>
        var id: Option<Option<string>> :=
          if "id" !in h then Some(None)
          else if h["id"].JString? then Some(Some(h["id"].s))
          else None;
        (match (id, ActionFromHash(ah), PlanFromHash(ph))
         case (Some(id), Some(action), Some(plan)) => Some(Event(id, name, email, action, plan))
         case _ => None)
      case _ => None
  }

  /** `to_hash` loses nothing: the event can be read back from its document. */
  lemma EventHashRoundTrip(e: Event)
    ensures EventFromHash(EventToHash(e)) == Some(e)
  {
  }

  /** Two different events never produce the same document. */
  lemma EventToHashInjective(e1: Event, e2: Event)
    requires EventToHash(e1) == EventToHash(e2)
    ensures e1 == e2
  {
  }

  // ---------------------------------------------------------------------------
  // Convenience events
  // ---------------------------------------------------------------------------

  /** `SignupEvent`: a signup action at `created`, with the plan given. */
  function SignupEvent(id: Option<string>, name: string, email: string, plan: Plan, created: int): (e: Event)
    ensures e.id == id && e.name == name && e.email == email && e.plan == plan
    ensures NewAction("signup", created) == Ok(e.action)
  {
    Event(id, name, email, SignupAction(created), plan)
  }

  /** `PayEvent`: a pay action at `created`, with the plan given. */
  function PayEvent(id: Option<string>, name: string, email: string, plan: Plan, created: int): (e: Event)
    ensures e.id == id && e.name == name && e.email == email && e.plan == plan
    ensures NewAction("pay", created) == Ok(e.action)
  {
    Event(id, name, email, PayAction(created), plan)
  }

  /** `CancelEvent`: a cancel action at `created` and always the empty plan. */
  function CancelEvent(id: Option<string>, name: string, email: string, created: int): (e: Event)
    ensures e.id == id && e.name == name && e.email == email
    ensures NewAction("cancel", created) == Ok(e.action)
    ensures PlanToHash(e.plan) == map[]
  {
    Event(id, name, email, CancelAction(created), EmptyPlan)
  }

  /** The document of a cancellation always holds the empty object as its plan. */
  lemma CancelEventPlanIsEmpty(id: Option<string>, name: string, email: string, created: int)
    ensures EventToHash(CancelEvent(id, name, email, created))["plan"] == JObject(map[])
    ensures EventToHash(CancelEvent(id, name, email, created))["action"]
      == JObject(map["name" := JString("cancel"), "created" := JInt(created)])
  {
  }

  /** A signup with a plan built without a price: the plan document reports a price of 0. */
  lemma SignupWithDefaultPrice(id: string, name: string, email: string, planName: string, created: int)
    ensures EventToHash(SignupEvent(Some(id), name, email, NewPlan(planName, None, None), created))
      == map[
        "id" := JString(id),
        "name" := JString(name),
        "email" := JString(email),
        "action" := JObject(map["name" := JString("signup"), "created" := JInt(created)]),
        "plan" := JObject(map["name" := JString(planName), "price" := JNumber(0.0)])
      ]
  {
  }

  /** A pay event for a plan priced 49: its plan document holds the price 49. */
  lemma PayEventPlanDocument(id: string, name: string, email: string, created: int)
    ensures EventToHash(PayEvent(Some(id), name, email, NewPlan("plan", Some(49.0), None), created))["plan"]
      == JObject(map["name" := JString("plan"), "price" := JNumber(49.0)])
  {
  }
}
