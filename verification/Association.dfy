/** Replacing a receiver's associated object: query, removal notice, store, addition notice. A notice may
    rewrite what states hold, point the receiver at another state, and make replacements of its own; and
    the store goes to whichever state it finds. */
module Association {
  import opened Words

  /** `seen` is what the receiver's state holds while the notice is given. */
  datatype Event<T> =
    | Removed(notified: T, seen: Option<T>)
    | Stored(association: Option<T>)
    | Added(notified: T, seen: Option<T>)

  datatype Associations<S, T> = Associations(selected: S, stored: map<S, Option<T>>, events: seq<Event<T>>)

  /** What a notice leaves behind: the state selected, what every state holds, and the events of the
      replacements it made meanwhile. */
  datatype Effect<S, T> = Effect(selected: S, stored: map<S, Option<T>>, events: seq<Event<T>>)

  /** One call with what its virtual callees did. */
  datatype Call<S, T> = Call(
    replacement: Option<T>,
    answer: Option<T>,
    onRemoved: Effect<S, T>,
    onAdded: Effect<S, T>)

  ghost predicate WF<S, T>(v: Associations<S, T>) {
    v.selected in v.stored
  }

  ghost predicate Enabled<S, T>(v: Associations<S, T>, c: Call<S, T>) {
    && c.onRemoved.stored.Keys == v.stored.Keys && c.onRemoved.selected in v.stored
    && c.onAdded.stored.Keys == v.stored.Keys && c.onAdded.selected in v.stored
  }

  ghost function Current<S, T>(v: Associations<S, T>): Option<T>
    requires WF(v)
  {
    v.stored[v.selected]
  }

  ghost function Holding<S, T>(e: Effect<S, T>): Option<T>
    requires e.selected in e.stored
  {
    e.stored[e.selected]
  }

  /** Where the call stands after its removal notice, if it gave one. */
  ghost function AfterRemoval<S, T>(v: Associations<S, T>, c: Call<S, T>): Effect<S, T> {
    if c.answer.Some? then c.onRemoved else Effect(v.selected, v.stored, [])
  }

  ghost function AfterStore<S, T>(v: Associations<S, T>, c: Call<S, T>): Effect<S, T> {
    var e := AfterRemoval(v, c);
    Effect(e.selected, e.stored[e.selected := c.replacement], [])
  }

  /** And after its addition notice, if it gave one. */
  ghost function AfterAddition<S, T>(v: Associations<S, T>, c: Call<S, T>): Effect<S, T> {
    if c.replacement.Some? then c.onAdded else AfterStore(v, c)
  }

  ghost function Notices<S, T>(v: Associations<S, T>, c: Call<S, T>): seq<Event<T>>
    requires WF(v)
  {
    (if c.answer.Some? then [Removed(c.answer.value, Current(v))] else [])
    + AfterRemoval(v, c).events
    + [Stored(c.replacement)]
    + (if c.replacement.Some? then [Added(c.replacement.value, c.replacement)] else [])
    + AfterAddition(v, c).events
  }

  /** `associated_object_replace` */
  ghost function Replaced<S, T>(v: Associations<S, T>, c: Call<S, T>): (r: Associations<S, T>)
    requires WF(v) && Enabled(v, c)
    ensures WF(r) && r.stored.Keys == v.stored.Keys
  {
    if c.answer == c.replacement then v
    else
      var e := AfterAddition(v, c);
      Associations(e.selected, e.stored, v.events + Notices(v, c))
  }

  /** What one call does, part by part: nothing if the query answered the replacement; otherwise a removal
      notice for the answer if there is one, the store to the state selected then and to no other, and an
      addition notice for the replacement if there is one, in that order. */
  lemma ReplaceEffect<S, T>(v: Associations<S, T>, c: Call<S, T>)
    requires WF(v) && Enabled(v, c)
    ensures c.answer == c.replacement ==> Replaced(v, c) == v
    ensures c.answer == None && c.replacement.Some? ==>
              Replaced(v, c) == Associations(c.onAdded.selected, c.onAdded.stored,
                v.events + [Stored(c.replacement), Added(c.replacement.value, c.replacement)] + c.onAdded.events)
    ensures c.answer.Some? && c.replacement == None ==>
              Replaced(v, c) == Associations(c.onRemoved.selected, c.onRemoved.stored[c.onRemoved.selected := None],
                v.events + [Removed(c.answer.value, v.stored[v.selected])] + c.onRemoved.events + [Stored(None)])
    ensures c.answer.Some? && c.replacement.Some? && c.answer != c.replacement ==>
              Replaced(v, c) == Associations(c.onAdded.selected, c.onAdded.stored,
                v.events + [Removed(c.answer.value, v.stored[v.selected])] + c.onRemoved.events
                + [Stored(c.replacement), Added(c.replacement.value, c.replacement)] + c.onAdded.events)
  {
    var n := Notices(v, c);
    if c.answer == None && c.replacement.Some? {
      assert n == [Stored(c.replacement), Added(c.replacement.value, c.replacement)] + c.onAdded.events;
    } else if c.answer.Some? && c.replacement == None {
      assert n == [Removed(c.answer.value, v.stored[v.selected])] + c.onRemoved.events + [Stored(None)];
    } else if c.answer.Some? && c.replacement.Some? {
      assert n == [Removed(c.answer.value, v.stored[v.selected])] + c.onRemoved.events
                  + [Stored(c.replacement), Added(c.replacement.value, c.replacement)] + c.onAdded.events;
    }
  }

  // ---------------------------------------------------------------------------------------------
  // In place
  // ---------------------------------------------------------------------------------------------

  class AssociationState<T> {
    var associated: Option<T>

    constructor (associated: Option<T>)
      ensures this.associated == associated
    {
      this.associated := associated;
    }
  }

  class Receiver<T(==)> {
    var state: AssociationState<T>
    var events: seq<Event<T>>
    const states: set<AssociationState<T>>

    constructor (state: AssociationState<T>, states: set<AssociationState<T>>)
      requires state in states
      ensures this.state == state && this.states == states && events == []
    {
      this.state, this.states := state, states;
      events := [];
    }

    ghost function View(): Associations<AssociationState<T>, T>
      reads this, states
    {
      Associations(state, map s | s in states :: s.associated, events)
    }

    /** A callee at work: it may leave anything in the states, select any of them, and have made
        replacements itself. */
    method Become(e: Effect<AssociationState<T>, T>)
      requires e.stored.Keys == states
      modifies this`state, this`events, states
      ensures View() == Associations(e.selected, e.stored, old(events) + e.events)
    {
      forall s | s in states {
        s.associated := e.stored[s];
      }
      state := e.selected;
      events := events + e.events;
    }

    method NotifyRemoved(notified: T, e: Effect<AssociationState<T>, T>)
      requires e.stored.Keys == states
      modifies this`state, this`events, states
      ensures View() == Associations(e.selected, e.stored,
                                     old(events) + [Removed(notified, old(state.associated))] + e.events)
    {
      events := events + [Removed(notified, state.associated)];
      Become(e);
    }

    method NotifyAdded(notified: T, e: Effect<AssociationState<T>, T>)
      requires e.stored.Keys == states
      modifies this`state, this`events, states
      ensures View() == Associations(e.selected, e.stored,
                                     old(events) + [Added(notified, old(state.associated))] + e.events)
    {
      events := events + [Added(notified, state.associated)];
      Become(e);
    }

    method Store(replacement: Option<T>)
      requires state in states
      modifies this`events, state`associated
      ensures View() == Associations(old(state), old(View()).stored[old(state) := replacement],
                                     old(events) + [Stored(replacement)])
      ensures state.associated == replacement
    {
      state.associated := replacement;
      events := events + [Stored(replacement)];
    }

    /** `associated_object_replace` */
    method Replace(replacement: Option<T>, answer: Option<T>,
                   onRemoved: Effect<AssociationState<T>, T>, onAdded: Effect<AssociationState<T>, T>)
      requires state in states && Enabled(View(), Call(replacement, answer, onRemoved, onAdded))
      modifies this`state, this`events, states
      ensures View() == Replaced(old(View()), Call(replacement, answer, onRemoved, onAdded))
    {
      ghost var v := View();
      if answer == replacement {
        return;
      }
      if answer.Some? {
        NotifyRemoved(answer.value, onRemoved);
      }
      Store(replacement);
      if replacement.Some? {
        NotifyAdded(replacement.value, onAdded);
      }
      assert View().events == Replaced(v, Call(replacement, answer, onRemoved, onAdded)).events;
    }
  }

  // ---------------------------------------------------------------------------------------------
  // Balance
  // ---------------------------------------------------------------------------------------------

  /** Added minus removed notices of one object. */
  ghost function Balance<T>(events: seq<Event<T>>, x: T): int {
    if events == [] then 0
    else
      var e := events[|events| - 1];
      Balance(events[..|events| - 1], x)
      + (if e.Added? && e.notified == x then 1 else if e.Removed? && e.notified == x then -1 else 0)
  }

  lemma BalanceOneMore<T>(events: seq<Event<T>>, e: Event<T>, x: T)
    ensures Balance(events + [e], x) == Balance(events, x)
              + (if e.Added? && e.notified == x then 1 else if e.Removed? && e.notified == x then -1 else 0)
  {
    assert (events + [e])[..|events|] == events;
  }

  ghost function Is<T>(association: Option<T>, x: T): int {
    if association == Some(x) then 1 else 0
  }

  lemma {:induction false} BalanceJoins<T>(a: seq<Event<T>>, b: seq<Event<T>>, x: T)
    ensures Balance(a + b, x) == Balance(a, x) + Balance(b, x)
    decreases |b|
  {
    if b == [] {
      assert a + b == a;
    } else {
      assert (a + b)[..|a + b| - 1] == a + b[..|b| - 1];
      BalanceJoins(a, b[..|b| - 1], x);
    }
  }

  /** What a call logs for an object: its own two notices, and what its callees' replacements logged. */
  lemma CallBalance<S, T>(v: Associations<S, T>, c: Call<S, T>, x: T)
    requires WF(v) && Enabled(v, c)
    ensures Balance(Replaced(v, c).events, x) - Balance(v.events, x) ==
            if c.answer == c.replacement then 0
            else Is(c.replacement, x) - Is(c.answer, x)
                 + Balance(AfterRemoval(v, c).events, x) + Balance(AfterAddition(v, c).events, x)
  {
    if c.answer != c.replacement {
      var e1 := if c.answer.Some? then [Removed(c.answer.value, Current(v))] else [];
      var e2 := AfterRemoval(v, c).events;
      var e3 := [Stored(c.replacement)];
      var e4 := if c.replacement.Some? then [Added(c.replacement.value, c.replacement)] else [];
      var e5 := AfterAddition(v, c).events;
      BalanceJoins(v.events, Notices(v, c), x);
      assert Notices(v, c) == e1 + e2 + e3 + e4 + e5;
      BalanceJoins(e1 + e2 + e3 + e4, e5, x);
      BalanceJoins(e1 + e2 + e3, e4, x);
      BalanceJoins(e1 + e2, e3, x);
      BalanceJoins(e1, e2, x);
      if c.answer.Some? {
        BalanceOneMore([], Removed(c.answer.value, Current(v)), x);
      }
      BalanceOneMore([], Stored(c.replacement), x);
      if c.replacement.Some? {
        BalanceOneMore([], Added(c.replacement.value, c.replacement), x);
      }
    }
  }

  // ---------------------------------------------------------------------------------------------
  // When one call keeps step
  // ---------------------------------------------------------------------------------------------

  /** For this object the call's notices follow the association. */
  ghost predicate InStep<S, T>(v: Associations<S, T>, c: Call<S, T>, x: T)
    requires WF(v) && Enabled(v, c)
  {
    Balance(Replaced(v, c).events, x) - Balance(v.events, x) == Is(Current(Replaced(v, c)), x) - Is(Current(v), x)
  }

  /** By how much a callee's own replacements are out of step with what it did to the association. */
  ghost function Drift<S, T>(e: Effect<S, T>, before: Option<T>, x: T): int
    requires e.selected in e.stored
  {
    Balance(e.events, x) - (Is(Holding(e), x) - Is(before, x))
  }

  /** What the callees are out by is what the answer was out by when the store came. */
  ghost predicate Settles<S, T>(v: Associations<S, T>, c: Call<S, T>, x: T)
    requires WF(v) && Enabled(v, c)
  {
    c.answer != c.replacement ==>
      Drift(AfterRemoval(v, c), Current(v), x) + Drift(AfterAddition(v, c), c.replacement, x)
      == Is(c.answer, x) - Is(Holding(AfterRemoval(v, c)), x)
  }

  /** For each object, whatever the callees do. */
  lemma InStepExactlyWhen<S, T>(v: Associations<S, T>, c: Call<S, T>, x: T)
    requires WF(v) && Enabled(v, c)
    ensures InStep(v, c, x) <==> Settles(v, c, x)
  {
    CallBalance(v, c, x);
  }

  /** The callees that the call has use for make no replacement of their own. */
  ghost predicate QuietCall<S, T>(c: Call<S, T>) {
    && (c.answer.Some? ==> c.onRemoved.events == [])
    && (c.replacement.Some? ==> c.onAdded.events == [])
  }

  /** The addition notice, if there is one, leaves the replacement where the receiver looks. */
  ghost predicate AdditionKeeps<S, T>(c: Call<S, T>)
    requires c.onAdded.selected in c.onAdded.stored
  {
    c.replacement.Some? ==> Holding(c.onAdded) == c.replacement
  }

  /** With such callees the notices keep step with the association, for every object, exactly when the
      query already answered the replacement, or told the truth and the addition notice kept the
      replacement. What the removal notice does to the states is of no account. */
  lemma QuietInStepExactlyWhen<S, T>(v: Associations<S, T>, c: Call<S, T>)
    requires WF(v) && Enabled(v, c) && QuietCall(c)
    ensures (forall x :: InStep(v, c, x)) <==>
            c.answer == c.replacement || (c.answer == Current(v) && AdditionKeeps(c))
  {
    forall x
      ensures InStep(v, c, x) <==>
              (c.answer != c.replacement ==>
                 Is(c.replacement, x) - Is(c.answer, x) == Is(Holding(AfterAddition(v, c)), x) - Is(Current(v), x))
    {
      CallBalance(v, c, x);
    }
    if forall x :: InStep(v, c, x) {
      assert c.answer.Some? ==> InStep(v, c, c.answer.value);
      assert c.replacement.Some? ==> InStep(v, c, c.replacement.value);
      assert Current(v).Some? ==> InStep(v, c, Current(v).value);
      assert Holding(AfterAddition(v, c)).Some? ==> InStep(v, c, Holding(AfterAddition(v, c)).value);
    }
  }

  /** A callee whose own replacements keep step. */
  ghost predicate KeepsStep<S, T(!new)>(e: Effect<S, T>, before: Option<T>)
    requires e.selected in e.stored
  {
    forall x :: Drift(e, before, x) == 0
  }

  /** With callees whose own replacements keep step, the call does exactly when its removal notice leaves
      the association that the query answered, so that the store overwrites what was given notice. */
  lemma NestedInStepExactlyWhen<S, T(!new)>(v: Associations<S, T>, c: Call<S, T>)
    requires WF(v) && Enabled(v, c)
    requires KeepsStep(AfterRemoval(v, c), Current(v)) && KeepsStep(AfterAddition(v, c), c.replacement)
    ensures (forall x :: InStep(v, c, x)) <==> c.answer == c.replacement || c.answer == Holding(AfterRemoval(v, c))
  {
    var held := Holding(AfterRemoval(v, c));
    forall x
      ensures InStep(v, c, x) <==> c.answer == c.replacement || Is(c.answer, x) == Is(held, x)
    {
      InStepExactlyWhen(v, c, x);
      assert Drift(AfterRemoval(v, c), Current(v), x) == 0 == Drift(AfterAddition(v, c), c.replacement, x);
    }
    if forall x :: InStep(v, c, x) {
      assert c.answer.Some? ==> InStep(v, c, c.answer.value);
      assert held.Some? ==> InStep(v, c, held.value);
    }
  }

  // ---------------------------------------------------------------------------------------------
  // Runs
  // ---------------------------------------------------------------------------------------------

  ghost predicate AllEnabled<S, T>(v: Associations<S, T>, calls: seq<Call<S, T>>)
    requires WF(v)
    decreases |calls|
  {
    calls == [] || (Enabled(v, calls[0]) && AllEnabled(Replaced(v, calls[0]), calls[1..]))
  }

  ghost function Run<S, T>(v: Associations<S, T>, calls: seq<Call<S, T>>): (r: Associations<S, T>)
    requires WF(v) && AllEnabled(v, calls)
    ensures WF(r) && r.stored.Keys == v.stored.Keys
    decreases |calls|
  {
    if calls == [] then v else Run(Replaced(v, calls[0]), calls[1..])
  }

  /** Each call of the run settles for this object. */
  ghost predicate SettledRun<S, T>(v: Associations<S, T>, calls: seq<Call<S, T>>, x: T)
    requires WF(v) && AllEnabled(v, calls)
    decreases |calls|
  {
    calls != [] ==> Settles(v, calls[0], x) && SettledRun(Replaced(v, calls[0]), calls[1..], x)
  }

  /** The object's added minus removed notices so far are 1 if it is the association and 0 if not,
      relative to the start. */
  ghost predicate Balanced<S, T>(v: Associations<S, T>, r: Associations<S, T>, x: T)
    requires WF(v) && WF(r)
  {
    Balance(r.events, x) - Balance(v.events, x) == Is(Current(r), x) - Is(Current(v), x)
  }

  ghost predicate BalancedThroughout<S, T>(v: Associations<S, T>, r: Associations<S, T>, calls: seq<Call<S, T>>, x: T)
    requires WF(v) && WF(r) && AllEnabled(r, calls)
    decreases |calls|
  {
    Balanced(v, r, x) && (calls != [] ==> BalancedThroughout(v, Replaced(r, calls[0]), calls[1..], x))
  }

  /** The notices agree with the association after every call of a run exactly when every call settles;
      and then they agree at its end. */
  lemma {:induction false} RunBalances<S, T>(v: Associations<S, T>, r: Associations<S, T>, calls: seq<Call<S, T>>, x: T)
    requires WF(v) && WF(r) && AllEnabled(r, calls) && Balanced(v, r, x)
    ensures BalancedThroughout(v, r, calls, x) <==> SettledRun(r, calls, x)
    ensures SettledRun(r, calls, x) ==> Balanced(v, Run(r, calls), x)
    decreases |calls|
  {
    if calls != [] {
      var r' := Replaced(r, calls[0]);
      InStepExactlyWhen(r, calls[0], x);
      assert Balanced(v, r', x) <==> InStep(r, calls[0], x);
      if Settles(r, calls[0], x) {
        RunBalances(v, r', calls[1..], x);
      }
    }
  }

  /** Every query reports the stored association. */
  ghost predicate Truthful<S, T>(v: Associations<S, T>, calls: seq<Call<S, T>>)
    requires WF(v) && AllEnabled(v, calls)
    decreases |calls|
  {
    calls != [] ==> calls[0].answer == Current(v) && Truthful(Replaced(v, calls[0]), calls[1..])
  }

  /** No callee makes a replacement, and no addition notice gives up the one it is about. */
  ghost predicate Docile<S, T>(c: Call<S, T>)
    requires c.onAdded.selected in c.onAdded.stored
  {
    c.answer != c.replacement ==> QuietCall(c) && AdditionKeeps(c)
  }

  ghost predicate DocileRun<S, T>(v: Associations<S, T>, calls: seq<Call<S, T>>)
    requires WF(v) && AllEnabled(v, calls)
    decreases |calls|
  {
    calls != [] ==> Docile(calls[0]) && DocileRun(Replaced(v, calls[0]), calls[1..])
  }

  /** A truthful run with such callees, whatever removals rewrite and wherever they redirect, settles
      throughout and ends with the last replacement associated. */
  lemma {:induction false} TruthfulRunSettles<S, T>(v: Associations<S, T>, calls: seq<Call<S, T>>, x: T)
    requires WF(v) && AllEnabled(v, calls) && Truthful(v, calls) && DocileRun(v, calls)
    ensures SettledRun(v, calls, x) && Balanced(v, Run(v, calls), x)
    ensures calls != [] ==> Current(Run(v, calls)) == calls[|calls| - 1].replacement
    decreases |calls|
  {
    if calls != [] {
      InStepExactlyWhen(v, calls[0], x);
      if calls[0].answer != calls[0].replacement {
        QuietInStepExactlyWhen(v, calls[0]);
      }
      assert Current(Replaced(v, calls[0])) == calls[0].replacement;
      TruthfulRunSettles(Replaced(v, calls[0]), calls[1..], x);
    }
    RunBalances(v, v, calls, x);
  }

  // ---------------------------------------------------------------------------------------------
  // Replacements within replacements
  // ---------------------------------------------------------------------------------------------

  lemma {:induction false} RunOnlyLogs<S, T>(v: Associations<S, T>, calls: seq<Call<S, T>>)
    requires WF(v) && AllEnabled(v, calls)
    ensures v.events <= Run(v, calls).events
    decreases |calls|
  {
    if calls != [] {
      RunOnlyLogs(Replaced(v, calls[0]), calls[1..]);
    }
  }

  /** The effect of a callee that makes these calls on the receiver it is notified of. */
  ghost function Calling<S, T>(v: Associations<S, T>, calls: seq<Call<S, T>>): Effect<S, T>
    requires WF(v) && AllEnabled(v, calls)
  {
    var r := Run(v, calls);
    RunOnlyLogs(v, calls);
    Effect(r.selected, r.stored, r.events[|v.events|..])
  }

  /** Calls that settle, to any depth, are a callee that keeps step. */
  lemma CallingKeepsStep<S, T(!new)>(v: Associations<S, T>, calls: seq<Call<S, T>>)
    requires WF(v) && AllEnabled(v, calls) && forall x :: SettledRun(v, calls, x)
    ensures KeepsStep(Calling(v, calls), Current(v))
  {
    var r := Run(v, calls);
    RunOnlyLogs(v, calls);
    assert v.events + r.events[|v.events|..] == r.events;
    forall x
      ensures Drift(Calling(v, calls), Current(v), x) == 0
    {
      assert SettledRun(v, calls, x);
      RunBalances(v, v, calls, x);
      BalanceJoins(v.events, Calling(v, calls).events, x);
    }
  }

  /** One replacement inside the removal notice, itself truthful and with callees that do nothing, puts
      the outer call out of step: the store overwrites an object that was told it was added. */
  lemma NestedReplacementIsLost<S, T>(v: Associations<S, T>, a: T, b: T, c: Call<S, T>, inner: Call<S, T>)
    requires WF(v) && Current(v) == Some(a) == c.answer && a != b && c.replacement == None
    requires var m := v.(events := v.events + [Removed(a, Some(a))]);
             && inner == Call(Some(b), Some(a), Effect(v.selected, v.stored, []),
                              Effect(v.selected, v.stored[v.selected := Some(b)], []))
             && c.onRemoved == Calling(m, [inner])
             && Enabled(v, c)
    ensures !InStep(v, c, b) && Current(Replaced(v, c)) == None
  {
    var m := v.(events := v.events + [Removed(a, Some(a))]);
    assert [inner][1..] == [];
    assert Run(m, [inner]) == Replaced(m, inner);
    CallBalance(m, inner, b);
    var r := Replaced(m, inner);
    assert m.events + c.onRemoved.events == r.events;
    BalanceJoins(m.events, c.onRemoved.events, b);
    CallBalance(v, c, b);
  }

  /** The order of notices: a removal is followed at once by the store, an addition follows at once on the
      store of its object; and the state holds the object of the notice while it is given. */
  ghost predicate InOrder<T>(events: seq<Event<T>>, i: nat)
    requires i < |events|
  {
    match events[i]
    case Removed(x, seen) =>
      seen == Some(x) && i + 1 < |events| && events[i + 1].Stored? && events[i + 1].association != Some(x)
    case Stored(_) => true
    case Added(x, seen) => seen == Some(x) && i > 0 && events[i - 1] == Stored(Some(x))
  }

  ghost predicate Ordered<T>(events: seq<Event<T>>) {
    forall i: nat :: i < |events| ==> InOrder(events, i)
  }

  /** The removal notice makes no replacement, and those of the addition notice are in order. */
  ghost predicate Orderly<S, T>(c: Call<S, T>) {
    && (c.answer.Some? ==> c.onRemoved.events == [])
    && (c.replacement.Some? ==> Ordered(c.onAdded.events))
  }

  ghost predicate OrderlyRun<S, T>(v: Associations<S, T>, calls: seq<Call<S, T>>)
    requires WF(v) && AllEnabled(v, calls)
    decreases |calls|
  {
    calls != [] ==> Orderly(calls[0]) && OrderlyRun(Replaced(v, calls[0]), calls[1..])
  }

  lemma OrderedJoin<T>(a: seq<Event<T>>, b: seq<Event<T>>)
    requires Ordered(a) && Ordered(b)
    ensures Ordered(a + b)
  {
    forall i: nat | i < |a + b|
      ensures InOrder(a + b, i)
    {
      if i < |a| {
        assert InOrder(a, i);
      } else {
        assert InOrder(b, i - |a|);
      }
    }
  }

  lemma CallOrders<S, T>(v: Associations<S, T>, c: Call<S, T>)
    requires WF(v) && Enabled(v, c) && c.answer == Current(v) && Orderly(c) && Ordered(v.events)
    ensures Ordered(Replaced(v, c).events)
  {
    if c.answer != c.replacement {
      var own := (if c.answer.Some? then [Removed(c.answer.value, Current(v))] else [])
                 + [Stored(c.replacement)]
                 + (if c.replacement.Some? then [Added(c.replacement.value, c.replacement)] else []);
      assert Notices(v, c) == own + AfterAddition(v, c).events;
      assert Ordered(own);
      OrderedJoin(own, AfterAddition(v, c).events);
      OrderedJoin(v.events, Notices(v, c));
    }
  }

  /** A truthful run gives every notice in that order. */
  lemma {:induction false} RunOrders<S, T>(v: Associations<S, T>, calls: seq<Call<S, T>>)
    requires WF(v) && AllEnabled(v, calls) && Truthful(v, calls) && OrderlyRun(v, calls) && Ordered(v.events)
    ensures Ordered(Run(v, calls).events)
    decreases |calls|
  {
    if calls != [] {
      CallOrders(v, calls[0]);
      RunOrders(Replaced(v, calls[0]), calls[1..]);
    }
  }
}
