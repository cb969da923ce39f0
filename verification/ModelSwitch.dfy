/** The owner of a Claude model switch. A switch is finished only behind its callback before,
    the success of the control request and its callback after, all for one model. */
module ModelSwitches {
  import opened Utf8

  const MAX_RETAINED_CALLBACK_IDS: nat := 4096

  /** A model as it is named; the empty name is no model. */
  type Model = seq<char>

  datatype When = Before | Behind

  datatype Active = Active(
    requested: Option<Model>, actualFrom: Model, candidate: Option<Model>, sequence: nat,
    preSeen: bool, postSeen: bool, controlSucceeded: bool)

  /** A callback with its two identities; `genuine` covers its registration, session and schema. */
  datatype Callback = Callback(
    request: nat, envelope: nat, moment: When, requested: Option<Model>, from: Model, to: Model, genuine: bool)

  datatype Owner = Owner(active: Option<Active>, requests: set<nat>, envelopes: set<nat>)

  /** What may be done to the owner. A callback is resolved by the runtime and dispatched to the
      plugins; either may fail. */
  datatype Action =
    | Begin(requested: Option<Model>, actualFrom: Model)
    | Handle(callback: Callback, resolved: bool, dispatched: bool)
    | ControlSucceeded
    | Refused
    | Finish
    | Reset

  const NOBODY := Owner(None, {}, {})

  // ---- One action ----

  predicate Admits(o: Owner, c: Callback) {
    && c.genuine && o.active.Some?
    && var a := o.active.value;
       && c.requested == a.requested && c.from == a.actualFrom && (a.candidate.Some? ==> a.candidate.value == c.to)
       && match c.moment
          case Before => !a.preSeen && !a.controlSucceeded && !a.postSeen
          case Behind => a.preSeen && a.controlSucceeded && !a.postSeen
  }

  predicate Fresh(o: Owner, c: Callback) {
    && c.request !in o.requests && c.envelope !in o.envelopes
    && |o.requests| < MAX_RETAINED_CALLBACK_IDS && |o.envelopes| < MAX_RETAINED_CALLBACK_IDS
  }

  function Claimed(o: Owner, c: Callback): Owner {
    o.(requests := o.requests + {c.request}, envelopes := o.envelopes + {c.envelope})
  }

  function Seen(a: Active, c: Callback): Active {
    a.(sequence := a.sequence + 1, candidate := Some(c.to), preSeen := a.preSeen || c.moment.Before?, postSeen := a.postSeen || c.moment.Behind?)
  }

  /** The owner behind an action, and whether the action succeeds. */
  function Perform(o: Owner, action: Action): (Owner, bool) {
    match action
    case Begin(requested, actualFrom) =>
      if o.active.Some? || actualFrom == [] then (o, false)
      else (o.(active := Some(Active(requested, actualFrom, None, 0, false, false, false))), true)
    case Handle(c, resolved, dispatched) =>
      if !Admits(o, c) || !Fresh(o, c) then (o, false)
      else if c.moment.Before? && !resolved then (Claimed(o, c), false)
      else (Claimed(o, c).(active := Some(Seen(o.active.value, c))), dispatched)
    case ControlSucceeded =>
      if o.active.Some? && o.active.value.preSeen && !o.active.value.postSeen && !o.active.value.controlSucceeded
      then (o.(active := Some(o.active.value.(controlSucceeded := true))), o.active.value.candidate.Some?)
      else (o, false)
    case Refused =>
      (o.(active := None),
       o.active.Some? && o.active.value.preSeen && !o.active.value.controlSucceeded && !o.active.value.postSeen)
    case Finish =>
      (o.(active := None),
       o.active.Some? && o.active.value.preSeen && o.active.value.controlSucceeded && o.active.value.postSeen)
    case Reset => (o.(active := None), true)
  }

  // ---- Whole runs ----

  function Run(actions: seq<Action>): Owner {
    if actions == [] then NOBODY else Perform(Run(actions[..|actions| - 1]), actions[|actions| - 1]).0
  }

  /** What an action leaves behind in the switch that is under way. */
  datatype Mark = PreSeen(model: Model) | Success | PostSeen(model: Model)

  function MarkOf(o: Owner, action: Action): seq<Mark> {
    if action.Handle? && Admits(o, action.callback) && Fresh(o, action.callback) && (action.resolved || action.callback.moment.Behind?)
    then [if action.callback.moment.Before? then PreSeen(action.callback.to) else PostSeen(action.callback.to)]
    else if action.ControlSucceeded? && o.active.Some? && o.active.value.preSeen && !o.active.value.postSeen && !o.active.value.controlSucceeded
    then [Success]
    else []
  }

  /** The marks since the switch that is under way began. */
  function Marks(actions: seq<Action>): seq<Mark> {
    if actions == [] then []
    else
      var before := actions[..|actions| - 1];
      var action := actions[|actions| - 1];
      if (action.Begin? && Run(before).active.None?) || action.Refused? || action.Finish? || action.Reset? then []
      else Marks(before) + MarkOf(Run(before), action)
  }

  /** The identities claimed so far, in order. */
  function Claims(actions: seq<Action>): seq<(nat, nat)> {
    if actions == [] then []
    else
      var before := actions[..|actions| - 1];
      var action := actions[|actions| - 1];
      Claims(before)
      + if action.Handle? && Admits(Run(before), action.callback) && Fresh(Run(before), action.callback)
        then [(action.callback.request, action.callback.envelope)] else []
  }

  /** The flags of a switch say which marks it has. */
  predicate Told(active: Option<Active>, marks: seq<Mark>) {
    match active
    case None => marks == []
    case Some(a) =>
      && (a.candidate.Some? <==> a.preSeen) && (a.controlSucceeded ==> a.preSeen) && (a.postSeen ==> a.controlSucceeded)
      && marks == (if !a.preSeen then [] else [PreSeen(a.candidate.value)])
                  + (if a.controlSucceeded then [Success] else [])
                  + (if a.postSeen then [PostSeen(a.candidate.value)] else [])
  }

  predicate Once(claims: seq<(nat, nat)>) {
    forall i, j :: 0 <= i < j < |claims| ==> claims[i].0 != claims[j].0 && claims[i].1 != claims[j].1
  }

  predicate Remembers(o: Owner, claims: seq<(nat, nat)>) {
    && (forall i :: 0 <= i < |claims| ==> claims[i].0 in o.requests && claims[i].1 in o.envelopes)
    && |o.requests| == |o.envelopes| == |claims| <= MAX_RETAINED_CALLBACK_IDS
  }

  /** In every run, over any number of switches and resets: the flags tell the truth, no
      identity is claimed twice, and both sets of identities have the same size. */
  lemma {:induction false} RunsAreInOrder(actions: seq<Action>)
    ensures Told(Run(actions).active, Marks(actions))
    ensures Once(Claims(actions)) && Remembers(Run(actions), Claims(actions))
  {
    if actions != [] {
      var before, action := actions[..|actions| - 1], actions[|actions| - 1];
      RunsAreInOrder(before);
      MarksStep(Run(before), Marks(before), action);
      ClaimsStep(Run(before), Claims(before), action);
    }
  }

  lemma MarksStep(o: Owner, marks: seq<Mark>, action: Action)
    requires Told(o.active, marks)
    ensures var over := (action.Begin? && o.active.None?) || action.Refused? || action.Finish? || action.Reset?;
            Told(Perform(o, action).0.active, if over then [] else marks + MarkOf(o, action))
  {
    hide Fresh;
    assert marks + [] == marks;
    if action.Handle? && o.active.Some? && MarkOf(o, action) != [] {
      var a, next := o.active.value, Perform(o, action).0.active;
      assert next == Some(Seen(a, action.callback));
      assert Seen(a, action.callback).candidate == Some(action.callback.to);
    }
  }

  lemma ClaimsStep(o: Owner, claims: seq<(nat, nat)>, action: Action)
    requires Once(claims) && Remembers(o, claims)
    ensures var more := claims + if action.Handle? && Admits(o, action.callback) && Fresh(o, action.callback)
                                 then [(action.callback.request, action.callback.envelope)] else [];
            Once(more) && Remembers(Perform(o, action).0, more)
  {
    hide Admits, Seen;
    if action.Handle? && Admits(o, action.callback) && Fresh(o, action.callback) {
      var c := action.callback;
      assert |o.requests + {c.request}| == |o.requests| + 1;
      assert |o.envelopes + {c.envelope}| == |o.envelopes| + 1;
    }
  }

  /** A switch is finished if and only if exactly three things have happened since it began: the
      callback before, the success, the callback behind, and both callbacks named one model. */
  lemma FinishMeansAllThree(actions: seq<Action>)
    ensures Perform(Run(actions), Finish).1 <==> exists model :: Marks(actions) == [PreSeen(model), Success, PostSeen(model)]
  {
    RunsAreInOrder(actions);
    var active := Run(actions).active;
    hide Run, Marks;
    if Perform(Run(actions), Finish).1 {
      assert Marks(actions) == [PreSeen(active.value.candidate.value), Success, PostSeen(active.value.candidate.value)];
    }
  }

  /** A switch may be refused if and only if all that has happened is its callback before. */
  lemma RefusalMeansOnlyPre(actions: seq<Action>)
    ensures Perform(Run(actions), Refused).1 <==> exists model :: Marks(actions) == [PreSeen(model)]
  {
    RunsAreInOrder(actions);
    var active := Run(actions).active;
    hide Run, Marks;
    if Perform(Run(actions), Refused).1 {
      assert Marks(actions) == [PreSeen(active.value.candidate.value)];
    }
  }

  /** A callback that was claimed is never accepted again, whatever has happened since; and a
      callback refused by validation or as a replay changes nothing. */
  lemma {:induction false} NoReplay(actions: seq<Action>, i: nat, c: Callback, resolved: bool, dispatched: bool)
    requires i < |Claims(actions)|
    requires c.request == Claims(actions)[i].0 || c.envelope == Claims(actions)[i].1
    ensures Perform(Run(actions), Handle(c, resolved, dispatched)) == (Run(actions), false)
  {
    RunsAreInOrder(actions);
    hide Run, Claims;
  }

  // ---- The owner as an object ----

  class Callbacks {
    var active: Option<Active>
    var seenRequests: set<nat>
    var seenEnvelopes: set<nat>

    function State(): Owner
      reads this
    {
      Owner(active, seenRequests, seenEnvelopes)
    }

    constructor ()
      ensures State() == NOBODY
    {
      active, seenRequests, seenEnvelopes := None, {}, {};
    }

    method ClaimCallbackIds(request: nat, envelope: nat) returns (ok: bool)
      modifies this`seenRequests, this`seenEnvelopes
      ensures ok <==> request !in old(seenRequests) && envelope !in old(seenEnvelopes)
                      && |old(seenRequests)| < MAX_RETAINED_CALLBACK_IDS && |old(seenEnvelopes)| < MAX_RETAINED_CALLBACK_IDS
      ensures seenRequests == if ok then old(seenRequests) + {request} else old(seenRequests)
      ensures seenEnvelopes == if ok then old(seenEnvelopes) + {envelope} else old(seenEnvelopes)
    {
      if request in seenRequests || envelope in seenEnvelopes {
        return false;
      }
      if |seenRequests| >= MAX_RETAINED_CALLBACK_IDS || |seenEnvelopes| >= MAX_RETAINED_CALLBACK_IDS {
        return false;
      }
      seenRequests, seenEnvelopes := seenRequests + {request}, seenEnvelopes + {envelope};
      return true;
    }

    predicate ValidBeforeClaim(c: Callback)
      reads this
      ensures ValidBeforeClaim(c) <==> Admits(State(), c)
    {
      if !c.genuine || active.None? then false
      else if c.requested != active.value.requested || c.from != active.value.actualFrom then false
      else if active.value.candidate.Some? && active.value.candidate.value != c.to then false
      else if c.moment.Before? then !active.value.preSeen && !active.value.controlSucceeded && !active.value.postSeen
      else active.value.preSeen && active.value.controlSucceeded && !active.value.postSeen
    }

    method BeginSwitch(requested: Option<Model>, actualFrom: Model) returns (ok: bool)
      modifies this
      ensures (State(), ok) == Perform(old(State()), Begin(requested, actualFrom))
    {
      if active.Some? || actualFrom == [] {
        return false;
      }
      active := Some(Active(requested, actualFrom, None, 0, false, false, false));
      return true;
    }

    method HandleCallback(c: Callback, resolved: bool, dispatched: bool) returns (ok: bool)
      modifies this
      ensures (State(), ok) == Perform(old(State()), Handle(c, resolved, dispatched))
      ensures ok <==> old(ValidBeforeClaim(c)) && c.request !in old(seenRequests) && c.envelope !in old(seenEnvelopes)
                      && |old(seenRequests)| < MAX_RETAINED_CALLBACK_IDS && |old(seenEnvelopes)| < MAX_RETAINED_CALLBACK_IDS
                      && (c.moment.Before? ==> resolved) && dispatched
    {
      if !ValidBeforeClaim(c) {
        return false;
      }
      ok := ClaimCallbackIds(c.request, c.envelope);
      if !ok {
        return false;
      }
      if c.moment.Before? && !resolved {
        return false;
      }
      var a := active.value;
      a := a.(sequence := a.sequence + 1);
      a := a.(candidate := Some(c.to));
      a := a.(preSeen := a.preSeen || c.moment.Before?);
      a := a.(postSeen := a.postSeen || c.moment.Behind?);
      active := Some(a);
      return dispatched;
    }

    method SetModelSucceeded() returns (ok: bool)
      modifies this`active
      ensures (State(), ok) == Perform(old(State()), ControlSucceeded)
    {
      if active.None? || !(active.value.preSeen && !active.value.postSeen && !active.value.controlSucceeded) {
        return false;
      }
      active := Some(active.value.(controlSucceeded := true));
      return active.value.candidate.Some?;
    }

    method SwitchRefused() returns (ok: bool)
      modifies this`active
      ensures (State(), ok) == Perform(old(State()), Refused)
      ensures active.None?
      ensures ok <==> old(active).Some? && old(active).value.preSeen && !old(active).value.controlSucceeded && !old(active).value.postSeen
    {
      var a := active;
      active := None;
      return a.Some? && a.value.preSeen && !a.value.controlSucceeded && !a.value.postSeen;
    }

    method FinishSwitch() returns (ok: bool)
      modifies this`active
      ensures (State(), ok) == Perform(old(State()), Finish)
      ensures active.None?
      ensures ok <==> old(active).Some? && old(active).value.preSeen && old(active).value.controlSucceeded && old(active).value.postSeen
    {
      var a := active;
      active := None;
      return a.Some? && a.value.preSeen && a.value.controlSucceeded && a.value.postSeen;
    }

    method ResetSwitch()
      modifies this`active
      ensures (State(), true) == Perform(old(State()), Reset)
    {
      active := None;
    }
  }
}
