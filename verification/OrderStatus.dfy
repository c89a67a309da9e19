/** The order status table and the check every status change goes through. */
module OrderStatus {
  import opened Common

  datatype Status =
    | PENDING_PAYMENT | PLACED | ACCEPTED | REJECTED | PREPARING
    | READY | ASSIGNED | PICKED | DELIVERED | CANCELLED

  datatype StatusActor = CUSTOMER | RESTAURANT_MEMBER | AGENT | SYSTEM | ADMIN

  /** The timestamp columns a status change may write. */
  datatype Stamp =
    | ACCEPTED_AT | REJECTED_AT | READY_AT | ASSIGNED_AT | PICKED_AT | DELIVERED_AT | CANCELLED_AT

  datatype TransitionRule = Rule(actors: set<StatusActor>, stamp: Option<Stamp>, requiresReason: bool)

  datatype TransitionError = InvalidTransition | ReasonRequired

  /** The constant transition table; `None` where it has no entry. */
  function Transition(current: Status, next: Status): Option<TransitionRule> {
    match (current, next)
    case (PENDING_PAYMENT, PLACED) => Some(Rule({SYSTEM}, None, false))
    case (PENDING_PAYMENT, CANCELLED) => Some(Rule({CUSTOMER, SYSTEM}, Some(CANCELLED_AT), false))
    case (PLACED, ACCEPTED) => Some(Rule({RESTAURANT_MEMBER}, Some(ACCEPTED_AT), false))
    case (PLACED, REJECTED) => Some(Rule({RESTAURANT_MEMBER}, Some(REJECTED_AT), true))
    case (PLACED, CANCELLED) =>
      Some(Rule({CUSTOMER, RESTAURANT_MEMBER, SYSTEM, ADMIN}, Some(CANCELLED_AT), true))
    case (ACCEPTED, PREPARING) => Some(Rule({RESTAURANT_MEMBER}, None, false))
    case (ACCEPTED, CANCELLED) => Some(Rule({RESTAURANT_MEMBER, ADMIN}, Some(CANCELLED_AT), true))
    case (PREPARING, READY) => Some(Rule({RESTAURANT_MEMBER}, Some(READY_AT), false))
    case (PREPARING, CANCELLED) => Some(Rule({RESTAURANT_MEMBER, ADMIN}, Some(CANCELLED_AT), true))
    case (READY, ASSIGNED) => Some(Rule({SYSTEM}, Some(ASSIGNED_AT), false))
    case (READY, CANCELLED) => Some(Rule({RESTAURANT_MEMBER, ADMIN}, Some(CANCELLED_AT), true))
    case (ASSIGNED, PICKED) => Some(Rule({AGENT}, Some(PICKED_AT), false))
    case (ASSIGNED, CANCELLED) => Some(Rule({ADMIN}, Some(CANCELLED_AT), true))
    case (PICKED, DELIVERED) => Some(Rule({AGENT}, Some(DELIVERED_AT), false))
    case _ => None
  }

  /** White space as the `trim` of ECMA-262 removes it (section 22.1.3.32). */
  predicate IsBlankChar(c: char) {
    || c in {' ', '\t', '\n', '\r', '\U{000B}', '\U{000C}', '\U{00A0}', '\U{1680}', '\U{FEFF}'}
    || '\U{2000}' <= c <= '\U{200A}'
    || c in {'\U{2028}', '\U{2029}', '\U{202F}', '\U{205F}', '\U{3000}'}
  }

  predicate HasReason(reason: Option<string>) {
    reason.Some? && exists i :: 0 <= i < |reason.value| && !IsBlankChar(reason.value[i])
  }

  /** Accepts exactly the entries of the table, for the listed actors, with a reason where one is due. */
  function AssertTransition(current: Status, next: Status, actor: StatusActor, reason: Option<string>)
    : Result<Option<Stamp>, TransitionError>
  {
    var allowed := Transition(current, next);
    if allowed.None? then Err(InvalidTransition)
    else if actor !in allowed.value.actors then Err(InvalidTransition)
    else if allowed.value.requiresReason && !HasReason(reason) then Err(ReasonRequired)
    else Ok(allowed.value.stamp)
  }

  predicate Terminal(s: Status) {
    s in {REJECTED, DELIVERED, CANCELLED}
  }

  /** How far along its life an order is; every transition moves it forward. */
  function Rank(s: Status): nat {
    match s
    case PENDING_PAYMENT => 0
    case PLACED => 1
    case ACCEPTED => 2
    case PREPARING => 3
    case READY => 4
    case ASSIGNED => 5
    case PICKED => 6
    case DELIVERED | REJECTED | CANCELLED => 7
  }

  // ---------------------------------------------------------------------------
  // The table by actor
  // ---------------------------------------------------------------------------

  /** What each actor may do: customers give up what is not accepted yet, restaurants decide on an order, prepare it and give
      it up until an agent has it, agents fetch and deliver it, administrators cancel what is not fetched yet. */
  ghost predicate MayMove(who: StatusActor, from: Status, to: Status) {
    match who
    case CUSTOMER => to == CANCELLED && from in {PENDING_PAYMENT, PLACED}
    case RESTAURANT_MEMBER =>
      || (from, to) in {(PLACED, ACCEPTED), (PLACED, REJECTED), (ACCEPTED, PREPARING), (PREPARING, READY)}
      || (to == CANCELLED && from in {PLACED, ACCEPTED, PREPARING, READY})
    case AGENT => (from, to) in {(ASSIGNED, PICKED), (PICKED, DELIVERED)}
    case ADMIN => to == CANCELLED && from in {PLACED, ACCEPTED, PREPARING, READY, ASSIGNED}
    case SYSTEM =>
      (from, to) in {(PENDING_PAYMENT, PLACED), (READY, ASSIGNED), (PENDING_PAYMENT, CANCELLED), (PLACED, CANCELLED)}
  }

  /** Rejections need a reason, and so do cancellations of anything but an unpaid order. */
  ghost predicate NeedsReason(from: Status, to: Status) {
    to == REJECTED || (to == CANCELLED && from != PENDING_PAYMENT)
  }

  /** Code points of white space and line terminators (sections 12.2 and 12.3 of ECMA-262). */
  const WHITE_SPACE: set<int> := {
    0x09, 0x0A, 0x0B, 0x0C, 0x0D, 0x20, 0xA0, 0x1680, 0x2000, 0x2001, 0x2002, 0x2003, 0x2004, 0x2005, 0x2006, 0x2007, 0x2008,
    0x2009, 0x200A, 0x2028, 0x2029, 0x202F, 0x205F, 0x3000, 0xFEFF}

  /** Some character of the text is none of them. */
  ghost predicate SaysSomething(reason: Option<string>) {
    reason.Some? && exists i :: 0 <= i < |reason.value| && reason.value[i] as int !in WHITE_SPACE
  }

  function ColumnOf(s: Status): Option<Stamp> {
    match s
    case ACCEPTED => Some(ACCEPTED_AT)
    case REJECTED => Some(REJECTED_AT)
    case READY => Some(READY_AT)
    case ASSIGNED => Some(ASSIGNED_AT)
    case PICKED => Some(PICKED_AT)
    case DELIVERED => Some(DELIVERED_AT)
    case CANCELLED => Some(CANCELLED_AT)
    case PENDING_PAYMENT | PLACED | PREPARING => None
  }

  lemma BlankIsWhiteSpace(c: char)
    ensures IsBlankChar(c) <==> c as int in WHITE_SPACE
  {
  }

  lemma ReasonSays(reason: Option<string>)
    ensures HasReason(reason) <==> SaysSomething(reason)
  {
    if reason.Some? {
      forall i | 0 <= i < |reason.value| ensures IsBlankChar(reason.value[i]) <==> reason.value[i] as int in WHITE_SPACE {
        BlankIsWhiteSpace(reason.value[i]);
      }
    }
    hide IsBlankChar;
  }

  /** The check accepts a change exactly if its actor may make it, with a reason where one is needed, and names the column of
      the new status. */
  lemma TableByActor(from: Status, to: Status, who: StatusActor, reason: Option<string>)
    ensures Transition(from, to).Some? && who in Transition(from, to).value.actors <==> MayMove(who, from, to)
    ensures Transition(from, to).Some? ==>
              Transition(from, to).value.stamp == ColumnOf(to)
              && (Transition(from, to).value.requiresReason <==> NeedsReason(from, to))
    ensures var r := AssertTransition(from, to, who, reason);
            && (r == Err(InvalidTransition) <==> !MayMove(who, from, to))
            && (r == Err(ReasonRequired) <==> MayMove(who, from, to) && NeedsReason(from, to) && !SaysSomething(reason))
            && (r.Ok? ==> r.value == ColumnOf(to))
  {
    ReasonSays(reason);
    hide HasReason, SaysSomething;
  }
}
