/**
 The in-memory gate in front of idempotent transactions: bounded concurrency, bounded per owner, with a queue
 in which a blocked owner does not hold up the others.
 */
module Gate {
  import opened Wrappers

  type Owner = string
  type Tag = Option<string>

  /** A handed-out release closure; the request keeps its slot until it is called for the first time. */
  datatype Grant = Grant(owner: Owner, tag: Tag, released: bool)
  datatype Waiter = Waiter(id: nat, owner: Owner, tag: Tag)
  datatype Limits = Limits(concurrency: nat, perOwner: nat, maxQueue: nat, maxQueuePerOwner: nat)

  type Grants = map<nat, Grant>
  datatype Line = Line(grants: Grants, queue: seq<Waiter>)

  // ----- The true holders and waiters

  function Holders(grants: Grants): set<nat> {
    set g | g in grants && !grants[g].released
  }

  function HoldersOf(grants: Grants, owner: Owner): set<nat> {
    set g | g in grants && !grants[g].released && grants[g].owner == owner
  }

  function HoldersWith(grants: Grants, owner: Owner, tag: string): set<nat> {
    set g | g in grants && !grants[g].released && grants[g].owner == owner && grants[g].tag == Some(tag)
  }

  function Waiting(queue: seq<Waiter>, owner: Owner): nat {
    if queue == [] then 0
    else Waiting(queue[..|queue| - 1], owner) + if queue[|queue| - 1].owner == owner then 1 else 0
  }

  predicate Admissible(limits: Limits, grants: Grants, owner: Owner) {
    |Holders(grants)| < limits.concurrency && |HoldersOf(grants, owner)| < limits.perOwner
  }

  function Admit(grants: Grants, w: Waiter): Grants {
    grants[w.id := Grant(w.owner, w.tag, false)]
  }

  function Without(queue: seq<Waiter>, i: nat): seq<Waiter>
    requires i < |queue|
  {
    queue[..i] + queue[i + 1..]
  }

  /**
   What a freed slot does to the line: waiters before `index` stay, the rest are admitted in order as the caps allow.
   */
  function Dispatch(limits: Limits, line: Line, index: nat): Line
    decreases |line.queue| - index
  {
    if index >= |line.queue| || |Holders(line.grants)| >= limits.concurrency then line
    else if !Admissible(limits, line.grants, line.queue[index].owner) then Dispatch(limits, line, index + 1)
    else Dispatch(limits, Line(Admit(line.grants, line.queue[index]), Without(line.queue, index)), index)
  }

  // ----- What always holds of the line

  predicate IdsOk(nextId: nat, line: Line) {
    && (forall g :: g in line.grants ==> g < nextId)
    && (forall i :: 0 <= i < |line.queue| ==> line.queue[i].id < nextId && line.queue[i].id !in line.grants)
    && (forall i, j :: 0 <= i < j < |line.queue| ==> line.queue[i].id < line.queue[j].id)
  }

  ghost predicate CapsOk(limits: Limits, line: Line) {
    && |Holders(line.grants)| <= limits.concurrency
    && (forall o :: |HoldersOf(line.grants, o)| <= limits.perOwner)
    && |line.queue| <= limits.maxQueue
    && (forall o :: Waiting(line.queue, o) <= limits.maxQueuePerOwner)
  }

  /** First come, first served per owner: whoever was ever admitted asked before every waiter of that owner. */
  predicate InTurn(line: Line) {
    forall g, i :: g in line.grants && 0 <= i < |line.queue| && line.grants[g].owner == line.queue[i].owner ==>
      g < line.queue[i].id
  }

  predicate NoneAdmissible(limits: Limits, line: Line, upTo: nat) {
    forall i :: 0 <= i < upTo && i < |line.queue| ==> !Admissible(limits, line.grants, line.queue[i].owner)
  }

  ghost predicate LineOk(limits: Limits, nextId: nat, line: Line) {
    IdsOk(nextId, line) && CapsOk(limits, line) && InTurn(line) && NoneAdmissible(limits, line, |line.queue|)
  }

  // ----- How the counts move

  lemma AdmitOwner(grants: Grants, w: Waiter, o: Owner)
    requires w.id !in grants
    ensures |HoldersOf(Admit(grants, w), o)| == |HoldersOf(grants, o)| + if o == w.owner then 1 else 0
  {
    if o == w.owner {
      assert HoldersOf(Admit(grants, w), o) == HoldersOf(grants, o) + {w.id};
    } else {
      assert HoldersOf(Admit(grants, w), o) == HoldersOf(grants, o);
    }
  }

  lemma AdmitTag(grants: Grants, w: Waiter, o: Owner, t: string)
    requires w.id !in grants
    ensures |HoldersWith(Admit(grants, w), o, t)| == |HoldersWith(grants, o, t)| +
      if o == w.owner && w.tag == Some(t) then 1 else 0
  {
    if o == w.owner && w.tag == Some(t) {
      assert HoldersWith(Admit(grants, w), o, t) == HoldersWith(grants, o, t) + {w.id};
    } else {
      assert HoldersWith(Admit(grants, w), o, t) == HoldersWith(grants, o, t);
    }
  }

  lemma AdmitCounts(grants: Grants, w: Waiter)
    requires w.id !in grants
    ensures |Holders(Admit(grants, w))| == |Holders(grants)| + 1
    ensures forall o :: |HoldersOf(Admit(grants, w), o)| == |HoldersOf(grants, o)| + if o == w.owner then 1 else 0
    ensures forall o, t ::
              |HoldersWith(Admit(grants, w), o, t)| == |HoldersWith(grants, o, t)| +
                if o == w.owner && w.tag == Some(t) then 1 else 0
  {
    assert Holders(Admit(grants, w)) == Holders(grants) + {w.id};
    hide HoldersOf, HoldersWith, Admit;
    forall o ensures |HoldersOf(Admit(grants, w), o)| == |HoldersOf(grants, o)| + if o == w.owner then 1 else 0 {
      AdmitOwner(grants, w, o);
    }
    forall o, t
      ensures |HoldersWith(Admit(grants, w), o, t)| == |HoldersWith(grants, o, t)| +
        if o == w.owner && w.tag == Some(t) then 1 else 0 {
      AdmitTag(grants, w, o, t);
    }
  }

  function Ended(grants: Grants, g: nat): Grants
    requires g in grants
  {
    grants[g := grants[g].(released := true)]
  }

  lemma EndedOwner(grants: Grants, g: nat, o: Owner)
    requires g in Holders(grants)
    ensures |HoldersOf(Ended(grants, g), o)| == |HoldersOf(grants, o)| - if o == grants[g].owner then 1 else 0
  {
    if o == grants[g].owner {
      assert g in HoldersOf(grants, o) && HoldersOf(Ended(grants, g), o) == HoldersOf(grants, o) - {g};
    } else {
      assert HoldersOf(Ended(grants, g), o) == HoldersOf(grants, o);
    }
  }

  lemma EndedTag(grants: Grants, g: nat, o: Owner, t: string)
    requires g in Holders(grants)
    ensures |HoldersWith(Ended(grants, g), o, t)| == |HoldersWith(grants, o, t)| -
      if o == grants[g].owner && grants[g].tag == Some(t) then 1 else 0
  {
    if o == grants[g].owner && grants[g].tag == Some(t) {
      assert g in HoldersWith(grants, o, t) && HoldersWith(Ended(grants, g), o, t) == HoldersWith(grants, o, t) - {g};
    } else {
      assert HoldersWith(Ended(grants, g), o, t) == HoldersWith(grants, o, t);
    }
  }

  lemma EndedCounts(grants: Grants, g: nat)
    requires g in Holders(grants)
    ensures |Holders(Ended(grants, g))| == |Holders(grants)| - 1
    ensures forall o ::
              |HoldersOf(Ended(grants, g), o)| == |HoldersOf(grants, o)| - if o == grants[g].owner then 1 else 0
    ensures forall o, t ::
              |HoldersWith(Ended(grants, g), o, t)| == |HoldersWith(grants, o, t)| -
                if o == grants[g].owner && grants[g].tag == Some(t) then 1 else 0
  {
    assert Holders(Ended(grants, g)) == Holders(grants) - {g};
    forall o ensures |HoldersOf(Ended(grants, g), o)| == |HoldersOf(grants, o)| -
      if o == grants[g].owner then 1 else 0 {
      EndedOwner(grants, g, o);
    }
    hide HoldersOf, HoldersWith, Ended;
    forall o, t
      ensures |HoldersWith(Ended(grants, g), o, t)| == |HoldersWith(grants, o, t)| -
        if o == grants[g].owner && grants[g].tag == Some(t) then 1 else 0 {
      EndedTag(grants, g, o, t);
    }
  }

  lemma {:induction false} WaitingConcat(a: seq<Waiter>, b: seq<Waiter>, owner: Owner)
    ensures Waiting(a + b, owner) == Waiting(a, owner) + Waiting(b, owner)
  {
    if b == [] {
      assert a + b == a;
    } else {
      assert (a + b)[..|a + b| - 1] == a + b[..|b| - 1];
      WaitingConcat(a, b[..|b| - 1], owner);
    }
  }

  lemma WithoutCount(queue: seq<Waiter>, i: nat, o: Owner)
    requires i < |queue|
    ensures Waiting(Without(queue, i), o) == Waiting(queue, o) - if o == queue[i].owner then 1 else 0
  {
    var q := queue[i];
    assert Waiting([q], o) == if o == q.owner then 1 else 0 by { assert [q][..0] == []; }
    assert queue == queue[..i] + ([q] + queue[i + 1..]);
    hide Waiting;
    WaitingConcat(queue[..i], queue[i + 1..], o);
    WaitingConcat(queue[..i], [q] + queue[i + 1..], o);
    WaitingConcat([q], queue[i + 1..], o);
  }

  lemma WithoutCounts(queue: seq<Waiter>, i: nat)
    requires i < |queue|
    ensures forall o :: Waiting(Without(queue, i), o) == Waiting(queue, o) - if o == queue[i].owner then 1 else 0
  {
    hide Waiting, Without;
    forall o ensures Waiting(Without(queue, i), o) == Waiting(queue, o) - if o == queue[i].owner then 1 else 0 {
      WithoutCount(queue, i, o);
    }
  }

  // ----- Dispatching

  /** One admission from position `index`, when nobody before it can run. */
  lemma AdmitKeeps(limits: Limits, nextId: nat, line: Line, index: nat)
    requires index < |line.queue| && Admissible(limits, line.grants, line.queue[index].owner)
    requires IdsOk(nextId, line) && CapsOk(limits, line) && InTurn(line) && NoneAdmissible(limits, line, index)
    ensures var after := Line(Admit(line.grants, line.queue[index]), Without(line.queue, index));
      IdsOk(nextId, after) && CapsOk(limits, after) && InTurn(after) && NoneAdmissible(limits, after, index)
  {
    var w := line.queue[index];
    var after := Line(Admit(line.grants, w), Without(line.queue, index));
    hide Waiting, Holders, HoldersOf, HoldersWith;
    AdmitKeepsIds(nextId, line, index);
    assert w.id !in line.grants;
    AdmitCounts(line.grants, w);
    WithoutCounts(line.queue, index);
    hide IdsOk;
    assert NoneAdmissible(limits, after, index);
    assert CapsOk(limits, after);
    hide CapsOk;
    AdmitKeepsTurns(limits, nextId, line, index);
  }

  lemma AdmitKeepsTurns(limits: Limits, nextId: nat, line: Line, index: nat)
    requires index < |line.queue| && Admissible(limits, line.grants, line.queue[index].owner)
    requires IdsOk(nextId, line) && InTurn(line) && NoneAdmissible(limits, line, index)
    ensures InTurn(Line(Admit(line.grants, line.queue[index]), Without(line.queue, index)))
  {
    hide Holders, HoldersOf;
  }

  /** A dispatch keeps order and caps, and when it ends no waiter could still be admitted. */
  lemma {:induction false} DispatchKeeps(limits: Limits, nextId: nat, line: Line, index: nat)
    requires IdsOk(nextId, line) && CapsOk(limits, line) && InTurn(line) && NoneAdmissible(limits, line, index)
    ensures LineOk(limits, nextId, Dispatch(limits, line, index))
    decreases |line.queue| - index
  {
    hide IdsOk, CapsOk, InTurn;
    if index >= |line.queue| || |Holders(line.grants)| >= limits.concurrency {
    } else if !Admissible(limits, line.grants, line.queue[index].owner) {
      DispatchKeeps(limits, nextId, line, index + 1);
    } else {
      AdmitKeeps(limits, nextId, line, index);
      DispatchKeeps(limits, nextId, Line(Admit(line.grants, line.queue[index]), Without(line.queue, index)), index);
    }
  }

  /** A waiter is neither lost nor duplicated by a dispatch: it still waits, or it holds a slot under its own name. */
  lemma {:induction false} DispatchKeepsWaiters(limits: Limits, nextId: nat, line: Line, index: nat, w: Waiter)
    requires IdsOk(nextId, line)
    ensures var after := Dispatch(limits, line, index);
      && (w in after.queue ==> w in line.queue && w.id !in after.grants)
      && (w in line.queue && w !in after.queue ==>
        w.id in after.grants && after.grants[w.id] == Grant(w.owner, w.tag, false))
      && (forall g :: g in line.grants ==> g in after.grants && after.grants[g] == line.grants[g])
    decreases |line.queue| - index
  {
    if index >= |line.queue| || |Holders(line.grants)| >= limits.concurrency {
    } else if !Admissible(limits, line.grants, line.queue[index].owner) {
      DispatchKeepsWaiters(limits, nextId, line, index + 1, w);
    } else {
      var q := line.queue[index];
      var next := Line(Admit(line.grants, q), Without(line.queue, index));
      AdmitKeepsIds(nextId, line, index);
      StillQueued(line.queue, index, w);
      hide IdsOk, Without, Holders, Admissible;
      DispatchKeepsWaiters(limits, nextId, next, index, w);
    }
  }

  function Requests(line: Line): set<nat> {
    line.grants.Keys + set w | w in line.queue :: w.id
  }

  /** No request appears or disappears in a dispatch. */
  lemma {:induction false} DispatchConserves(limits: Limits, line: Line, index: nat)
    ensures Requests(Dispatch(limits, line, index)) == Requests(line)
    decreases |line.queue| - index
  {
    hide Requests, Admissible, Holders, Admit;
    if index >= |line.queue| || |Holders(line.grants)| >= limits.concurrency {
    } else if !Admissible(limits, line.grants, line.queue[index].owner) {
      DispatchConserves(limits, line, index + 1);
    } else {
      AdmissionConserves(line, index);
      DispatchConserves(limits, Line(Admit(line.grants, line.queue[index]), Without(line.queue, index)), index);
    }
  }

  lemma AdmissionConserves(line: Line, index: nat)
    requires index < |line.queue|
    ensures Requests(Line(Admit(line.grants, line.queue[index]), Without(line.queue, index))) == Requests(line)
  {
    var q := line.queue[index];
    forall w ensures w in line.queue <==> w == q || w in Without(line.queue, index) {
      StillQueued(line.queue, index, w);
    }
    hide Without;
  }

  lemma AdmitKeepsIds(nextId: nat, line: Line, index: nat)
    requires index < |line.queue| && IdsOk(nextId, line)
    ensures IdsOk(nextId, Line(Admit(line.grants, line.queue[index]), Without(line.queue, index)))
    ensures line.queue[index].id !in line.grants && line.queue[index] !in Without(line.queue, index)
  {
    var rest := Without(line.queue, index);
    assert forall i :: 0 <= i < |rest| ==> rest[i] == if i < index then line.queue[i] else line.queue[i + 1];
  }

  lemma StillQueued(queue: seq<Waiter>, index: nat, w: Waiter)
    requires index < |queue|
    ensures w in Without(queue, index) ==> w in queue
    ensures w in queue && w != queue[index] ==> w in Without(queue, index)
  {
  }

  // ----- The counters the gate really keeps

  function Count<K>(counts: map<K, nat>, key: K): nat {
    if key in counts then counts[key] else 0
  }

  /** Adds to one counter and forgets it once it reaches zero. */
  function Bump<K(!new)>(counts: map<K, nat>, key: K, delta: int): (r: map<K, nat>)
    requires Count(counts, key) + delta >= 0
    ensures forall k :: Count(r, k) == Count(counts, k) + if k == key then delta else 0
    ensures (forall k :: k in counts ==> counts[k] > 0) ==> forall k :: k in r ==> r[k] > 0
  {
    var value := Count(counts, key) + delta;
    if value <= 0 then counts - {key} else counts[key := value]
  }

  type Tags = map<Owner, map<string, nat>>

  function TagsOf(tags: Tags, owner: Owner): map<string, nat> {
    if owner in tags then tags[owner] else map[]
  }

  function BumpTag(tags: Tags, owner: Owner, tag: Tag, delta: int): (r: Tags)
    requires tag.Some? ==> Count(TagsOf(tags, owner), tag.value) + delta >= 0
    ensures forall o, t ::
              Count(TagsOf(r, o), t) == Count(TagsOf(tags, o), t) + if o == owner && tag == Some(t) then delta else 0
    ensures NoZeroTags(tags) ==> NoZeroTags(r)
  {
    if tag.None? then tags else
      var mine := Bump(TagsOf(tags, owner), tag.value, delta);
      if mine == map[] then tags - {owner} else tags[owner := mine]
  }

  predicate NoZeroTags(tags: Tags) {
    forall o :: o in tags ==> tags[o] != map[] && forall t :: t in tags[o] ==> tags[o][t] > 0
  }

  datatype Counters = Counters(active: nat, activeBy: map<Owner, nat>, activeTags: Tags, queuedBy: map<Owner, nat>)

  /** Every counter is the number of true holders or waiters, and an owner or tag with none has no entry. */
  ghost predicate CountersOk(c: Counters, line: Line) {
    && c.active == |Holders(line.grants)|
    && (forall o :: Count(c.activeBy, o) == |HoldersOf(line.grants, o)|)
    && (forall o, t :: Count(TagsOf(c.activeTags, o), t) == |HoldersWith(line.grants, o, t)|)
    && (forall o :: Count(c.queuedBy, o) == Waiting(line.queue, o))
    && (forall o :: o in c.activeBy ==> c.activeBy[o] > 0) && NoZeroTags(c.activeTags)
    && (forall o :: o in c.queuedBy ==> c.queuedBy[o] > 0)
  }

  function Started(c: Counters, owner: Owner, tag: Tag): Counters {
    c.(active := c.active + 1, activeBy := Bump(c.activeBy, owner, 1),
      activeTags := BumpTag(c.activeTags, owner, tag, 1))
  }

  lemma StartedOk(c: Counters, line: Line, w: Waiter)
    requires CountersOk(c, line) && w.id !in line.grants
    ensures CountersOk(Started(c, w.owner, w.tag), line.(grants := Admit(line.grants, w)))
  {
    AdmitCounts(line.grants, w);
  }

  lemma EndedOk(c: Counters, line: Line, g: nat)
    requires CountersOk(c, line) && g in Holders(line.grants)
    ensures var row := line.grants[g];
      && c.active > 0 && Count(c.activeBy, row.owner) > 0
      && (row.tag.Some? ==> Count(TagsOf(c.activeTags, row.owner), row.tag.value) > 0)
      && CountersOk(c.(active := c.active - 1, activeBy := Bump(c.activeBy, row.owner, -1),
                       activeTags := BumpTag(c.activeTags, row.owner, row.tag, -1)),
                    line.(grants := Ended(line.grants, g)))
  {
    EndedCounts(line.grants, g);
    var row := line.grants[g];
    assert g in HoldersOf(line.grants, row.owner);
    assert row.tag.Some? ==> g in HoldersWith(line.grants, row.owner, row.tag.value);
  }

  lemma UnqueuedOk(c: Counters, line: Line, i: nat)
    requires CountersOk(c, line) && i < |line.queue|
    ensures Count(c.queuedBy, line.queue[i].owner) > 0
    ensures CountersOk(c.(queuedBy := Bump(c.queuedBy, line.queue[i].owner, -1)),
      line.(queue := Without(line.queue, i)))
  {
    WithoutCounts(line.queue, i);
  }

  lemma QueuedOk(c: Counters, line: Line, w: Waiter)
    requires CountersOk(c, line)
    ensures CountersOk(c.(queuedBy := Bump(c.queuedBy, w.owner, 1)), line.(queue := line.queue + [w]))
  {
    forall o ensures Waiting(line.queue + [w], o) == Waiting(line.queue, o) + if o == w.owner then 1 else 0 {
      assert (line.queue + [w])[..|line.queue|] == line.queue;
    }
  }

  // ----- The gate

  /** Admitted requests hold the release closure numbered `id`; waiting ones have armed their timer. */
  datatype Answer = Admitted(id: nat) | Queued(id: nat) | Busy

  function Answered(limits: Limits, line: Line, nextId: nat, owner: Owner): Answer {
    if Admissible(limits, line.grants, owner) then Admitted(nextId)
    else if |line.queue| >= limits.maxQueue || Waiting(line.queue, owner) >= limits.maxQueuePerOwner then Busy
    else Queued(nextId)
  }

  function Joined(line: Line, answer: Answer, owner: Owner, tag: Tag): Line {
    match answer
    case Admitted(id) => line.(grants := Admit(line.grants, Waiter(id, owner, tag)))
    case Queued(id) => line.(queue := line.queue + [Waiter(id, owner, tag)])
    case Busy => line
  }

  /** A new grant holds a slot for this owner and tag; nobody else's grant changed. */
  predicate HasSlot(grants: Grants, after: Grants, id: nat, owner: Owner, tag: Tag) {
    && id !in grants && after.Keys == grants.Keys + {id} && (forall g :: g in grants ==> after[g] == grants[g])
    && id in HoldersOf(after, owner) && (tag.Some? ==> id in HoldersWith(after, owner, tag.value))
  }

  /** What the three answers to a request mean for the line. */
  lemma AnswerMeans(limits: Limits, line: Line, nextId: nat, owner: Owner, tag: Tag)
    requires LineOk(limits, nextId, line)
    ensures var answer := Answered(limits, line, nextId, owner);
      var after := Joined(line, answer, owner, tag);
      && (answer.Admitted? <==> |Holders(line.grants)| < limits.concurrency
                                && |HoldersOf(line.grants, owner)| < limits.perOwner)
      && (answer.Busy? ==> |line.queue| >= limits.maxQueue || Waiting(line.queue, owner) >= limits.maxQueuePerOwner)
      && (answer.Admitted? ==> HasSlot(line.grants, after.grants, answer.id, owner, tag) && after.queue == line.queue)
      && (answer.Queued? ==>
            after.queue == line.queue + [Waiter(answer.id, owner, tag)] && after.grants == line.grants)
      && (answer.Busy? ==> after == line)
  {
    hide Waiting;
  }

  class Gate {
    const limits: Limits
    var nextId: nat
    var active: nat
    var activeBy: map<Owner, nat>
    var activeTags: Tags
    var queuedBy: map<Owner, nat>
    var queue: seq<Waiter>
    var grants: Grants

    ghost function Now(): Line
      reads this
    {
      Line(grants, queue)
    }

    ghost function CountersNow(): Counters
      reads this
    {
      Counters(active, activeBy, activeTags, queuedBy)
    }

    ghost predicate Valid()
      reads this
    {
      LineOk(limits, nextId, Now()) && CountersOk(CountersNow(), Now())
    }

    constructor (limits: Limits)
      ensures Valid() && this.limits == limits && grants == map[] && queue == []
    {
      this.limits := limits;
      nextId, active, activeBy, activeTags, queuedBy, queue, grants := 0, 0, map[], map[], map[], [], map[];
    }

    predicate CanRun(owner: Owner)
      reads this
    {
      active < limits.concurrency && Count(activeBy, owner) < limits.perOwner
    }

    /** Takes a slot and hands out its release closure. */
    method Start(id: nat, owner: Owner, tag: Tag)
      requires id !in grants
      modifies this`active, this`activeBy, this`activeTags, this`grants
      ensures CountersNow() == Started(old(CountersNow()), owner, tag)
      ensures grants == Admit(old(grants), Waiter(id, owner, tag))
    {
      active := active + 1;
      activeBy := Bump(activeBy, owner, 1);
      activeTags := BumpTag(activeTags, owner, tag, 1);
      grants := grants[id := Grant(owner, tag, false)];
    }

    /** Admits from the queue, in order, every waiter the caps allow. */
    method Next()
      requires CountersOk(CountersNow(), Now())
      requires IdsOk(nextId, Now()) && CapsOk(limits, Now()) && InTurn(Now())
      modifies this`active, this`activeBy, this`activeTags, this`queuedBy, this`queue, this`grants
      ensures Valid() && Now() == Dispatch(limits, old(Now()), 0)
    {
      hide CountersOk, IdsOk, CapsOk, InTurn, NoneAdmissible, LineOk, Holders, HoldersOf, Bump, Started;
      NobodyBefore(limits, Now());
      DispatchKeeps(limits, nextId, Now(), 0);
      CountersAgree(limits, CountersNow(), Now());
      var index := 0;
      while index < |queue| && active < limits.concurrency
        invariant IdsOk(nextId, Now()) && CapsOk(limits, Now()) && InTurn(Now()) && NoneAdmissible(limits, Now(), index)
        invariant CountersOk(CountersNow(), Now()) && active == |Holders(grants)|
        invariant Dispatch(limits, Now(), index) == Dispatch(limits, old(Now()), 0)
        decreases |queue| - index
      {
        CountersAgree(limits, CountersNow(), Now());
        AdmitKeepsIds(nextId, Now(), index);
        var waiter := queue[index];
        if !CanRun(waiter.owner) {
          NobodyHere(limits, Now(), index);
          index := index + 1;
          continue;
        }
        AdmitKeeps(limits, nextId, Now(), index);
        UnqueuedOk(CountersNow(), Now(), index);
        queue := Without(queue, index);
        queuedBy := Bump(queuedBy, waiter.owner, -1);
        StartedOk(CountersNow(), Now(), waiter);
        Start(waiter.id, waiter.owner, waiter.tag);
        CountersAgree(limits, CountersNow(), Now());
      }
    }

    /**
     Runs at once if the caps allow it, which they never do past a waiter of the same owner; otherwise queues or
     refuses.
     */
    method Acquire(owner: Owner, tag: Tag) returns (answer: Answer)
      requires Valid()
      modifies this
      ensures Valid()
      ensures answer == Answered(limits, old(Now()), old(nextId), owner)
      ensures Now() == Joined(old(Now()), answer, owner, tag)
      ensures nextId == old(nextId) + if answer.Busy? then 0 else 1
      ensures answer.Admitted? <==> |Holders(old(grants))| < limits.concurrency
                                    && |HoldersOf(old(grants), owner)| < limits.perOwner
      ensures answer.Busy? ==> |old(queue)| >= limits.maxQueue || Waiting(old(queue), owner) >= limits.maxQueuePerOwner
      ensures answer.Admitted? ==> HasSlot(old(grants), grants, answer.id, owner, tag) && queue == old(queue)
      ensures answer.Queued? ==> queue == old(queue) + [Waiter(answer.id, owner, tag)] && grants == old(grants)
      ensures answer.Busy? ==> queue == old(queue) && grants == old(grants)
    {
      hide LineOk, HoldersOf, Holders, HoldersWith, Waiting, CountersOk, Bump, BumpTag, Started, HasSlot;
      AnswerMeans(limits, Now(), nextId, owner, tag);
      FreshId(limits, nextId, Now());
      CountersAgree(limits, CountersNow(), Now());
      if CanRun(owner) {
        answer := Admitted(nextId);
        AdmittedAtOnce(limits, nextId, Now(), Waiter(nextId, owner, tag));
        StartedOk(CountersNow(), Now(), Waiter(nextId, owner, tag));
        nextId := nextId + 1;
        Start(answer.id, owner, tag);
        return;
      }
      if |queue| >= limits.maxQueue || Count(queuedBy, owner) >= limits.maxQueuePerOwner {
        return Busy;
      }
      answer := Queued(nextId);
      Enqueue(owner, tag);
    }

    /** Joins the end of the queue and arms the timer. */
    method Enqueue(owner: Owner, tag: Tag)
      requires Valid() && !Admissible(limits, grants, owner)
      requires |queue| < limits.maxQueue && Waiting(queue, owner) < limits.maxQueuePerOwner
      modifies this`nextId, this`queue, this`queuedBy
      ensures Valid() && nextId == old(nextId) + 1 && queue == old(queue) + [Waiter(old(nextId), owner, tag)]
    {
      hide LineOk, HoldersOf, Holders, HoldersWith, Waiting, CountersOk, Bump;
      var waiter := Waiter(nextId, owner, tag);
      QueuedOk(CountersNow(), Now(), waiter);
      EnqueuedOk(limits, nextId, Now(), waiter);
      nextId := nextId + 1;
      queue := queue + [waiter];
      queuedBy := Bump(queuedBy, owner, 1);
    }

    /** The first call frees the slot and dispatches; every later call changes nothing. */
    method Release(id: nat)
      requires Valid() && id in grants
      modifies this
      ensures Valid() && nextId == old(nextId) && id in grants && grants[id].released
      ensures Now() == if old(grants[id].released) then old(Now())
                        else Dispatch(limits, Line(Ended(old(grants), id), old(queue)), 0)
    {
      if grants[id].released {
        return;
      }
      EndedOk(CountersNow(), Now(), id);
      EndedKeeps(limits, nextId, Now(), id);
      var grant := grants[id];
      grants := grants[id := grant.(released := true)];
      active := active - 1;
      activeBy := Bump(activeBy, grant.owner, -1);
      activeTags := BumpTag(activeTags, grant.owner, grant.tag, -1);
      DispatchKeepsWaiters(limits, nextId, Now(), 0, Waiter(id, grant.owner, grant.tag));
      Next();
    }

    /** Gives up a queued request; IN_PROGRESS means exactly that a holder of its owner carries its tag. */
    method Timeout(position: nat) returns (inProgress: bool)
      requires Valid() && position < |queue|
      modifies this
      ensures Valid() && nextId == old(nextId) && grants == old(grants) && queue == Without(old(queue), position)
      ensures var waiter := old(queue[position]);
        inProgress <==> waiter.tag.Some? && HoldersWith(grants, waiter.owner, waiter.tag.value) != {}
    {
      var waiter := queue[position];
      UnqueuedOk(CountersNow(), Now(), position);
      WithoutKeeps(limits, nextId, Now(), position);
      queue := Without(queue, position);
      queuedBy := Bump(queuedBy, waiter.owner, -1);
      inProgress := waiter.tag.Some? && waiter.tag.value in TagsOf(activeTags, waiter.owner);
      assert waiter.tag.Some? ==>
        Count(TagsOf(activeTags, waiter.owner), waiter.tag.value)
          == |HoldersWith(grants, waiter.owner, waiter.tag.value)|;
    }
  }

  // ----- Why each operation keeps the line in order

  lemma {:induction false} NoneWaits(queue: seq<Waiter>, owner: Owner)
    requires forall i :: 0 <= i < |queue| ==> queue[i].owner != owner
    ensures Waiting(queue, owner) == 0
  {
    if queue != [] { NoneWaits(queue[..|queue| - 1], owner); }
  }

  /** An owner that can run has nobody queued, so a new request never overtakes one of its own owner. */
  lemma NobodyWaits(limits: Limits, nextId: nat, line: Line, owner: Owner)
    requires LineOk(limits, nextId, line) && Admissible(limits, line.grants, owner)
    ensures Waiting(line.queue, owner) == 0
    ensures forall i :: 0 <= i < |line.queue| ==> line.queue[i].owner != owner
  {
    NoneWaits(line.queue, owner);
  }

  /** The counters decide as the true holders and waiters would. */
  lemma CountersAgree(limits: Limits, c: Counters, line: Line)
    requires CountersOk(c, line)
    ensures c.active == |Holders(line.grants)|
    ensures forall o :: c.active < limits.concurrency && Count(c.activeBy, o) < limits.perOwner <==>
      Admissible(limits, line.grants, o)
    ensures forall o :: Count(c.queuedBy, o) == Waiting(line.queue, o)
  {
  }

  lemma NobodyBefore(limits: Limits, line: Line)
    ensures NoneAdmissible(limits, line, 0)
  {
  }

  lemma NobodyHere(limits: Limits, line: Line, index: nat)
    requires index < |line.queue| && NoneAdmissible(limits, line, index)
      && !Admissible(limits, line.grants, line.queue[index].owner)
    ensures NoneAdmissible(limits, line, index + 1)
  {
  }

  lemma FreshId(limits: Limits, nextId: nat, line: Line)
    requires LineOk(limits, nextId, line)
    ensures nextId !in line.grants
  {
  }

  lemma AdmittedAtOnce(limits: Limits, nextId: nat, line: Line, w: Waiter)
    requires LineOk(limits, nextId, line) && Admissible(limits, line.grants, w.owner) && w.id == nextId
    ensures LineOk(limits, nextId + 1, line.(grants := Admit(line.grants, w)))
  {
    NobodyWaits(limits, nextId, line, w.owner);
    AdmitCounts(line.grants, w);
  }

  lemma EnqueuedOk(limits: Limits, nextId: nat, line: Line, w: Waiter)
    requires LineOk(limits, nextId, line) && !Admissible(limits, line.grants, w.owner) && w.id == nextId
    requires |line.queue| < limits.maxQueue && Waiting(line.queue, w.owner) < limits.maxQueuePerOwner
    ensures LineOk(limits, nextId + 1, line.(queue := line.queue + [w]))
  {
    hide Waiting, Holders, HoldersOf;
    AppendCounts(line.queue, w);
    var after := line.(queue := line.queue + [w]);
    assert IdsOk(nextId + 1, after) && InTurn(after) && NoneAdmissible(limits, after, |after.queue|);
    hide IdsOk, InTurn, NoneAdmissible;
  }

  lemma AppendCounts(queue: seq<Waiter>, w: Waiter)
    ensures forall o :: Waiting(queue + [w], o) == Waiting(queue, o) + if o == w.owner then 1 else 0
  {
    assert (queue + [w])[..|queue|] == queue;
  }

  lemma EndedKeeps(limits: Limits, nextId: nat, line: Line, g: nat)
    requires LineOk(limits, nextId, line) && g in Holders(line.grants)
    ensures var after := line.(grants := Ended(line.grants, g));
      IdsOk(nextId, after) && CapsOk(limits, after) && InTurn(after)
  {
    EndedCounts(line.grants, g);
  }

  lemma WithoutKeeps(limits: Limits, nextId: nat, line: Line, i: nat)
    requires LineOk(limits, nextId, line) && i < |line.queue|
    ensures LineOk(limits, nextId, line.(queue := Without(line.queue, i)))
  {
    WithoutCounts(line.queue, i);
    var after := line.(queue := Without(line.queue, i));
    assert forall k :: 0 <= k < |after.queue| ==> after.queue[k] == if k < i then line.queue[k] else line.queue[k + 1];
    assert IdsOk(nextId, after) && InTurn(after) && NoneAdmissible(limits, after, |after.queue|);
  }
}
