/** Threads by mailbox and key, and tasks by source message and type: any number of callers of the owning tenant
    look for the row of one key and create it if it is missing. Rows that fail the joins with mailbox, message or
    agent are invisible; callers may remove them, but only them. */
module GetOrCreate {
  import opened Text

  /** Threads have a unique index that counts invisible rows too, and are looked up before they are inserted;
      tasks are inserted unless a visible one exists, and looked up when that inserts nothing. */
  datatype Kind = Thread | Task

  datatype Pc =
    | Load | Insert | LoadAgain | ListInvalid | Delete(ids: seq<nat>) | InsertAgain | LoadLast
    | Confirm | Returned(id: nat) | Threw

  /** The rows of the key: each id with its visibility. */
  type Rows = map<nat, bool>

  /** `next` is larger than every id ever created. */
  datatype Store = Store(rows: Rows, next: nat)

  /** A caller and the id it created for itself. */
  datatype Caller = Caller(pc: Pc, own: nat)

  function Visible(rows: Rows): set<nat> {
    set id | id in rows && rows[id]
  }

  function Invisible(rows: Rows): set<nat> {
    set id | id in rows && !rows[id]
  }

  predicate Blocked(kind: Kind, rows: Rows) {
    if kind == Thread then rows != map[] else Visible(rows) != {}
  }

  /** Some order of a set of ids. */
  ghost predicate Lists(ids: seq<nat>, s: set<nat>) {
    forall id :: id in ids <==> id in s
  }

  function To(c: Caller, pc: Pc): Caller {
    c.(pc := pc)
  }

  /** One operation of a caller. `pick` is the row a lookup finds, `listed` the order of the invisible rows, and
      `works` whether the statement takes effect and returns; a deletion swallows its exception. */
  ghost predicate Step(kind: Kind, s: Store, c: Caller, t: Store, d: Caller) {
    match c.pc
    case Load =>
      t == s && d == To(c, if Visible(s.rows) == {} then Insert else d.pc) && (Visible(s.rows) != {} ==> Finds(s, d))
    case Insert =>
      if Blocked(kind, s.rows) then t == s && d == To(c, LoadAgain)
      else t == Store(s.rows[c.own := true], s.next) && d == To(c, Confirm)
    case LoadAgain =>
      t == s && d == To(c, if Visible(s.rows) == {} then ListInvalid else d.pc)
      && (Visible(s.rows) != {} ==> Finds(s, d))
    case ListInvalid =>
      t == s && d.own == c.own
      && (if Invisible(s.rows) == {} then d.pc == Threw
          else d.pc.Delete? && d.pc.ids != [] && Lists(d.pc.ids, Invisible(s.rows)))
    case Delete(ids) =>
      if ids == [] then t == s && d == To(c, InsertAgain)
      else (t == s || t == s.(rows := s.rows - {ids[0]})) && d == To(c, Delete(ids[1..]))
    case InsertAgain =>
      if Blocked(kind, s.rows) then t == s && d == To(c, LoadLast)
      else t == Store(s.rows[c.own := true], s.next) && d == To(c, Confirm)
    case LoadLast =>
      t == s && d == To(c, if Visible(s.rows) == {} then Threw else d.pc) && (Visible(s.rows) != {} ==> Finds(s, d))
    case Confirm => t == s && d == To(c, Returned(c.own))
    case Returned(_) => t == s && d == c
    case Threw => t == s && d == c
  }

  ghost predicate Finds(s: Store, d: Caller) {
    d.pc.Returned? && d.pc.id in Visible(s.rows)
  }

  function Stage(pc: Pc): nat {
    match pc
    case Load => 8
    case Insert => 7
    case LoadAgain => 6
    case ListInvalid => 5
    case Delete(_) => 4
    case InsertAgain => 3
    case LoadLast => 2
    case Confirm => 1
    case Returned(_) => 0
    case Threw => 0
  }

  /** Every step of a caller brings it nearer to its end, whatever the others do in between: it moves on to a later
      operation, or has one row less to delete. */
  lemma CallerAdvances(kind: Kind, s: Store, c: Caller, t: Store, d: Caller)
    requires Step(kind, s, c, t, d) && !c.pc.Returned? && !c.pc.Threw?
    ensures Stage(d.pc) < Stage(c.pc) || (c.pc.Delete? && d.pc.Delete? && |d.pc.ids| < |c.pc.ids|)
  {
    hide Visible, Invisible;
  }

  datatype State = State(store: Store, callers: map<nat, Caller>)

  ghost predicate Arrives(kind: Kind, s: State, t: State, who: nat) {
    && who !in s.callers
    && t == State(s.store.(next := s.store.next + 1),
                  s.callers[who := Caller(if kind == Thread then Load else Insert, s.store.next)])
  }

  /** A caller takes a step, or ends with an exception or dies. */
  ghost predicate Moves(kind: Kind, s: State, t: State, who: nat) {
    && who in s.callers && who in t.callers && t.callers == s.callers[who := t.callers[who]]
    && (Step(kind, s.store, s.callers[who], t.store, t.callers[who])
        || (t.store == s.store && !s.callers[who].pc.Returned? && t.callers[who] == To(s.callers[who], Threw)))
  }

  ghost predicate Next(kind: Kind, s: State, t: State) {
    exists who: nat :: Arrives(kind, s, t, who) || Moves(kind, s, t, who)
  }

  ghost predicate Run(kind: Kind, states: seq<State>) {
    states != [] && forall i :: 0 <= i < |states| - 1 ==> Next(kind, states[i], states[i + 1])
  }

  /** The key may have invisible rows, and at most one visible one. Nobody has called yet. */
  ghost predicate Initial(s: State) {
    s.callers == map[] && |Visible(s.store.rows)| <= 1 && forall id :: id in s.store.rows ==> id < s.store.next
  }

  // ----- agreement -----

  ghost predicate CallerInv(s: Store, c: Caller) {
    && c.own < s.next
    && (c.own in s.rows ==> c.own in Visible(s.rows))
    && (!c.pc.Confirm? && !c.pc.Returned? && !c.pc.Threw? ==> c.own !in s.rows)
    && (c.pc.Confirm? ==> c.own in Visible(s.rows))
    && (c.pc.Returned? ==> c.pc.id in Visible(s.rows))
    && (c.pc.Delete? ==> forall id :: id in c.pc.ids ==> id < s.next && id !in Visible(s.rows))
  }

  /** Ids that callers created for themselves are theirs alone. */
  ghost predicate Inv(s: State) {
    && (forall a, b :: a in Visible(s.store.rows) && b in Visible(s.store.rows) ==> a == b)
    && (forall id :: id in s.store.rows ==> id < s.store.next)
    && (forall who :: who in s.callers ==> CallerInv(s.store, s.callers[who]))
    && (forall v, w :: v in s.callers && w in s.callers && s.callers[v].own == s.callers[w].own ==> v == w)
    && (forall v, w :: v in s.callers && w in s.callers && s.callers[v].pc.Delete? ==>
                         s.callers[w].own !in s.callers[v].pc.ids)
  }

  /** What a step of one caller keeps, and what it owes to the others. */
  ghost predicate Kept(s: Store, c: Caller, t: Store, d: Caller) {
    && d.own == c.own && t.next == s.next
    && Visible(s.rows) <= Visible(t.rows) <= Visible(s.rows) + {c.own}
    && (Visible(t.rows) != Visible(s.rows) ==> Visible(s.rows) == {})
    && t.rows.Keys <= s.rows.Keys + {c.own}
    && (d.pc.Delete? ==> forall id :: id in d.pc.ids ==> id in Invisible(s.rows) || (c.pc.Delete? && id in c.pc.ids))
    && CallerInv(t, d)
  }

  lemma StepKeeps(kind: Kind, s: Store, c: Caller, t: Store, d: Caller)
    requires Step(kind, s, c, t, d) && CallerInv(s, c)
    requires forall id :: id in s.rows ==> id < s.next
    ensures Kept(s, c, t, d)
  {
    match c.pc
    case Delete(ids) =>
      if ids != [] {
        assert ids[0] in ids;
        assert ids[0] !in Visible(s.rows);
        assert Visible(s.rows - {ids[0]}) == Visible(s.rows);
        assert forall id :: id in ids[1..] ==> id in ids;
      }
    case Insert => InsertShows(kind, s, c.own);
    case InsertAgain => InsertShows(kind, s, c.own);
    case _ =>
  }

  lemma InsertShows(kind: Kind, s: Store, own: nat)
    ensures Visible(s.rows[own := true]) == Visible(s.rows) + {own}
    ensures !Blocked(kind, s.rows) ==> Visible(s.rows) == {}
  {
  }

  lemma NextKeeps(kind: Kind, s: State, t: State)
    requires Inv(s) && Next(kind, s, t)
    ensures Inv(t) && Visible(s.store.rows) <= Visible(t.store.rows)
  {
    var who: nat :| Arrives(kind, s, t, who) || Moves(kind, s, t, who);
    hide Visible, Invisible;
    if Moves(kind, s, t, who) {
      hide Lists, Blocked, Finds;
      if Step(kind, s.store, s.callers[who], t.store, t.callers[who]) {
        StepKeeps(kind, s.store, s.callers[who], t.store, t.callers[who]);
        CallerStepKeeps(s, t, who);
      }
    }
  }

  lemma CallerStepKeeps(s: State, t: State, who: nat)
    requires Inv(s) && who in s.callers && who in t.callers && t.callers == s.callers[who := t.callers[who]]
    requires Kept(s.store, s.callers[who], t.store, t.callers[who])
    ensures Inv(t)
  {
    hide Visible, Invisible;
    forall w | w in t.callers && w != who ensures CallerInv(t.store, t.callers[w]) {
      OtherKept(s, t, who, w);
    }
    assert forall w :: w in s.callers ==> s.callers[w].own !in Invisible(s.store.rows) by {
      OwnIsNotInvisible(s);
    }
  }

  lemma OwnIsNotInvisible(s: State)
    requires Inv(s)
    ensures forall w :: w in s.callers ==> s.callers[w].own !in Invisible(s.store.rows)
  {
  }

  lemma OtherKept(s: State, t: State, who: nat, w: nat)
    requires Inv(s) && who in s.callers && w in s.callers && w != who && w in t.callers && who in t.callers
    requires t.callers[w] == s.callers[w] && Kept(s.store, s.callers[who], t.store, t.callers[who])
    ensures CallerInv(t.store, t.callers[w])
  {
    assert CallerInv(s.store, s.callers[w]);
    assert s.callers[who].own != s.callers[w].own;
  }

  /** However the callers interleave, throw or die: there is at most one visible row for the key; once it is there
      nobody removes it, though others remove invisible rows; and whoever returns, returns it. */
  lemma {:induction false} CallersAgree(kind: Kind, states: seq<State>, i: nat, j: nat)
    requires Run(kind, states) && Inv(states[0]) && i <= j < |states|
    ensures Inv(states[i]) && Inv(states[j]) && Visible(states[i].store.rows) <= Visible(states[j].store.rows)
    decreases j
  {
    if j > 0 {
      CallersAgree(kind, states, if i == j then i - 1 else i, j - 1);
      assert Next(kind, states[j - 1], states[j]);
      NextKeeps(kind, states[j - 1], states[j]);
    }
  }

  /** Any two callers that return, at any two moments of a run, return the same id. */
  lemma ReturnsAgree(kind: Kind, states: seq<State>, i: nat, j: nat, v: nat, w: nat)
    requires Run(kind, states) && Initial(states[0]) && i <= j < |states|
    requires v in states[i].callers && states[i].callers[v].pc.Returned?
    requires w in states[j].callers && states[j].callers[w].pc.Returned?
    ensures states[i].callers[v].pc.id == states[j].callers[w].pc.id
  {
    InitialInv(states[0]);
    CallersAgree(kind, states, i, j);
    assert CallerInv(states[i].store, states[i].callers[v]);
    assert CallerInv(states[j].store, states[j].callers[w]);
  }

  lemma InitialInv(s: State)
    requires Initial(s)
    ensures Inv(s)
  {
    var visible := Visible(s.store.rows);
    forall a, b | a in visible && b in visible ensures a == b {
      if a != b {
        assert |{a, b}| == 2 && {a, b} <= visible;
        SubsetIsSmaller({a, b}, visible);
      }
    }
  }

  // ----- a caller that is alone -----

  /** A step whose deletion works. */
  ghost predicate WorkingStep(kind: Kind, s: Store, c: Caller, t: Store, d: Caller) {
    Step(kind, s, c, t, d)
    && (c.pc.Delete? && c.pc.ids != [] ==> t.rows == s.rows - {c.pc.ids[0]})
  }

  /** Where a lone caller can be: it only cleans up when there is nothing visible, and then all that is there. */
  ghost predicate Alone(kind: Kind, s: Store, c: Caller) {
    match c.pc
    case LoadAgain => s.rows != map[] && (kind == Task ==> Visible(s.rows) != {})
    case ListInvalid => s.rows != map[] && Visible(s.rows) == {}
    case Delete(ids) => s.rows.Keys <= set id | id in ids
    case InsertAgain => s.rows == map[]
    case LoadLast => false
    case Threw => false
    case _ => true
  }

  lemma AloneStays(kind: Kind, s: Store, c: Caller, t: Store, d: Caller)
    requires Alone(kind, s, c) && WorkingStep(kind, s, c, t, d)
    ensures Alone(kind, t, d)
  {
    match c.pc
    case Insert =>
      if Blocked(kind, s.rows) && kind == Task {
        var id :| id in Visible(s.rows);
        assert id in s.rows;
      }
    case ListInvalid =>
      forall id | id in s.rows ensures id in Invisible(s.rows) {
        assert id !in Visible(s.rows);
      }
      var some :| some in s.rows;
      assert some in Invisible(s.rows);
    case Delete(ids) =>
      if ids != [] {
        assert ids == [ids[0]] + ids[1..];
      }
    case _ =>
  }

  /** A caller that is alone never ends with an exception of its own: whatever invisible rows it meets, every step
      leads on until it returns a visible row. */
  lemma {:induction false} LoneCallerSucceeds(kind: Kind, stores: seq<Store>, callers: seq<Caller>, n: nat)
    requires |stores| == |callers| > n
    requires callers[0].pc == if kind == Thread then Load else Insert
    requires forall i :: 0 <= i < n ==> WorkingStep(kind, stores[i], callers[i], stores[i + 1], callers[i + 1])
    ensures Alone(kind, stores[n], callers[n]) && callers[n].pc != Threw
    decreases n
  {
    hide Step, Visible, Invisible;
    if n > 0 {
      LoneCallerSucceeds(kind, stores, callers, n - 1);
      AloneStays(kind, stores[n - 1], callers[n - 1], stores[n], callers[n]);
    }
  }
}
