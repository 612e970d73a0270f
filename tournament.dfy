/**
 * The tournament resource: a table of tournament rows with soft delete, the
 * read queries over it, and the forward-only lifecycle
 * Unstarted -> Started -> Stopped driven by `start` and `stop`.
 *
 * The persistence layer is an in-memory map from id to row; ids are handed
 * out in increasing order. The store's list query names no order; the model
 * fixes ascending id order. The clock is the parameter `now`, already in
 * whole seconds.
 */
module Tournaments {
  import opened Options

  // Reasons, exactly as the controller writes them.
  const Missing := "Tournament doesn't exist."                 // getById, updateById, deleteById
  const MissingForLifecycle := "The Tournament doesn't exist."  // start, stop
  const HasEnded := "The tournament has ended."
  const AlreadyStarted := "The tournament was already started."
  const AlreadyStopped := "The tournament was already stopped."
  const NotStarted := "The tournament wasn't started."
  const CannotCreate := "Cannot create a tournament."

  // Paging defaults of getList.
  const DefaultOffset: nat := 0
  const DefaultLimit: nat := 30

  datatype Error = NotFound(reason: string) | BadRequest(reason: string) | Internal(reason: string)

  datatype Result<T> = Ok(value: T) | Fail(error: Error)

  /** A stored row: the columns the controller touches and the soft-delete marker. */
  datatype Row = Row(title: string, startDate: Option<int>, stopDate: Option<int>, deleted: bool)

  /** What a caller is shown: the row without its audit columns. */
  datatype Tournament = Tournament(id: int, title: string, startDate: Option<int>, stopDate: Option<int>)

  type Table = map<int, Row>

  /** JavaScript truthiness of a nullable whole-second timestamp: null and 0 both read as unset. */
  predicate IsSet(d: Option<int>) {
    d.Some? && d.value != 0
  }

  datatype Stage = Unstarted | Started | Stopped

  /** The lifecycle stage as the guards of `start` and `stop` see it (stopDate is looked at first). */
  function StageOf(row: Row): Stage {
    if IsSet(row.stopDate) then Stopped
    else if IsSet(row.startDate) then Started
    else Unstarted
  }

  function Rank(s: Stage): nat {
    match s
    case Unstarted => 0
    case Started => 1
    case Stopped => 2
  }

  /** The lifecycle invariant: a stop date is only ever recorded on a started tournament. */
  predicate Consistent(row: Row) {
    IsSet(row.stopDate) ==> IsSet(row.startDate)
  }

  /** A row the store still returns: present and not soft-deleted. */
  predicate Live(t: Table, id: int) {
    id in t && !t[id].deleted
  }

  function Project(id: int, row: Row): Tournament {
    Tournament(id, row.title, row.startDate, row.stopDate)
  }

  /** getById: find a live row and show it without audit columns. */
  function GetById(t: Table, id: int): (r: Result<Tournament>)
    ensures r.Ok? <==> Live(t, id)
    ensures r.Ok? ==> r.value.id == id && r.value.title == t[id].title
    ensures r.Ok? ==> r.value.startDate == t[id].startDate && r.value.stopDate == t[id].stopDate
    ensures r.Fail? ==> r.error == NotFound(Missing)
  {
    if Live(t, id) then Ok(Project(id, t[id])) else Fail(NotFound(Missing))
  }

  /** The live rows with ids in [lo, hi), in ascending id order (the order the model fixes for the store). */
  function Listing(t: Table, lo: int, hi: int): seq<Tournament>
    decreases hi - lo
  {
    if hi <= lo then []
    else (if Live(t, lo) then [Project(lo, t[lo])] else []) + Listing(t, lo + 1, hi)
  }

  /** A listed tournament is exactly a live row in range, shown as getById shows it, and every such row is listed. */
  lemma {:induction false} ListingMembers(t: Table, lo: int, hi: int, x: Tournament)
    ensures x in Listing(t, lo, hi) <==> lo <= x.id < hi && GetById(t, x.id) == Ok(x)
    decreases hi - lo
  {
    if lo < hi {
      ListingMembers(t, lo + 1, hi, x);
    }
  }

  /** The listing keeps ascending id order: ids are in range and strictly increasing. */
  lemma {:induction false} ListingOrdered(t: Table, lo: int, hi: int)
    ensures forall k :: 0 <= k < |Listing(t, lo, hi)| ==> lo <= Listing(t, lo, hi)[k].id < hi
    ensures forall i, j :: 0 <= i < j < |Listing(t, lo, hi)| ==> Listing(t, lo, hi)[i].id < Listing(t, lo, hi)[j].id
    decreases hi - lo
  {
    if lo < hi {
      ListingOrdered(t, lo + 1, hi);
    }
  }

  /** `+q || d`: an absent, non-numeric (None) or zero query value falls back to the default. */
  function OrDefault(q: Option<nat>, d: nat): (r: nat)
    ensures q.Some? && q.value != 0 ==> r == q.value
    ensures r != d ==> q == Some(r) && r != 0
  {
    if q.Some? && q.value != 0 then q.value else d
  }

  function Min(a: int, b: int): int {
    if a <= b then a else b
  }

  /** getList: at most `limit` live tournaments, starting at position `offset` of ascending id order. */
  function GetList(t: Table, nextId: int, offset: Option<nat>, limit: Option<nat>): (r: seq<Tournament>)
    ensures |r| <= OrDefault(limit, DefaultLimit)
    ensures OrDefault(offset, DefaultOffset) < |Listing(t, 1, nextId)| ==>
              |r| == Min(OrDefault(limit, DefaultLimit), |Listing(t, 1, nextId)| - OrDefault(offset, DefaultOffset))
    ensures OrDefault(offset, DefaultOffset) >= |Listing(t, 1, nextId)| ==> r == []
    ensures forall k :: 0 <= k < |r| ==> r[k] == Listing(t, 1, nextId)[OrDefault(offset, DefaultOffset) + k]
  {
    var all := Listing(t, 1, nextId);
    var off := OrDefault(offset, DefaultOffset);
    var lim := OrDefault(limit, DefaultLimit);
    if off >= |all| then [] else all[off..Min(off + lim, |all|)]
  }

  /** Everything getList returns is a live row as getById shows it, listed in ascending id order. */
  lemma ListedAreLive(t: Table, nextId: int, offset: Option<nat>, limit: Option<nat>)
    ensures forall x :: x in GetList(t, nextId, offset, limit) ==> GetById(t, x.id) == Ok(x)
    ensures forall i, j :: 0 <= i < j < |GetList(t, nextId, offset, limit)| ==>
              GetList(t, nextId, offset, limit)[i].id < GetList(t, nextId, offset, limit)[j].id
  {
    var all := Listing(t, 1, nextId);
    var r := GetList(t, nextId, offset, limit);
    var off := OrDefault(offset, DefaultOffset);
    ListingOrdered(t, 1, nextId);
    forall x | x in r
      ensures GetById(t, x.id) == Ok(x)
    {
      var k :| 0 <= k < |r| && r[k] == x;
      assert all[off + k] == x;
      ListingMembers(t, 1, nextId, x);
    }
    forall i, j | 0 <= i < j < |r|
      ensures r[i].id < r[j].id
    {
      assert r[i] == all[off + i] && r[j] == all[off + j];
    }
  }

  /** A zero limit is treated like a missing one (JavaScript `||`): both give the page size 30; likewise for the offset. */
  lemma ZeroMeansDefault(t: Table, nextId: int, offset: Option<nat>, limit: Option<nat>)
    ensures GetList(t, nextId, offset, Some(0)) == GetList(t, nextId, offset, None) == GetList(t, nextId, offset, Some(30))
    ensures GetList(t, nextId, Some(0), limit) == GetList(t, nextId, None, limit)
  {
  }

  /** The checks of `start` after the row was found: ended first, then already started. */
  function StartRow(row: Row, now: int): (r: Result<Row>)
    ensures r.Ok? <==> StageOf(row) == Unstarted
    ensures StageOf(row) == Stopped ==> r == Fail(BadRequest(HasEnded))
    ensures StageOf(row) == Started ==> r == Fail(BadRequest(AlreadyStarted))
    ensures r.Ok? ==> r.value == row.(startDate := Some(now))
  {
    if IsSet(row.stopDate) then Fail(BadRequest(HasEnded))
    else if IsSet(row.startDate) then Fail(BadRequest(AlreadyStarted))
    else Ok(row.(startDate := Some(now)))
  }

  /** The checks of `stop` after the row was found: already stopped first, then not started. */
  function StopRow(row: Row, now: int): (r: Result<Row>)
    ensures r.Ok? <==> StageOf(row) == Started
    ensures StageOf(row) == Stopped ==> r == Fail(BadRequest(AlreadyStopped))
    ensures StageOf(row) == Unstarted ==> r == Fail(BadRequest(NotStarted))
    ensures r.Ok? ==> r.value == row.(stopDate := Some(now))
  {
    if IsSet(row.stopDate) then Fail(BadRequest(AlreadyStopped))
    else if !IsSet(row.startDate) then Fail(BadRequest(NotStarted))
    else Ok(row.(stopDate := Some(now)))
  }

  /** One lifecycle request against one row. */
  datatype Action = Begin(now: int) | End(now: int)

  /** The row after an action: the transition on success, the row unchanged on a refusal. */
  function Apply(row: Row, a: Action): Row {
    var r := match a
      case Begin(now) => StartRow(row, now)
      case End(now) => StopRow(row, now);
    if r.Ok? then r.value else row
  }

  function Replay(row: Row, acts: seq<Action>): Row
    decreases |acts|
  {
    if acts == [] then row else Replay(Apply(row, acts[0]), acts[1..])
  }

  /** One action keeps the invariant, moves the stage forward by at most one step and never clears a date. */
  lemma StepForward(row: Row, a: Action)
    requires Consistent(row)
    ensures Consistent(Apply(row, a))
    ensures Rank(StageOf(row)) <= Rank(StageOf(Apply(row, a))) <= Rank(StageOf(row)) + 1
    ensures IsSet(row.startDate) ==> Apply(row, a).startDate == row.startDate
    ensures IsSet(row.stopDate) ==> Apply(row, a).stopDate == row.stopDate
    ensures Apply(row, a).title == row.title && Apply(row, a).deleted == row.deleted
  {
  }

  /** Any sequence of start and stop requests keeps the invariant, never moves backward and never clears a date. */
  lemma {:induction false} ReplayForward(row: Row, acts: seq<Action>)
    requires Consistent(row)
    ensures Consistent(Replay(row, acts))
    ensures Rank(StageOf(row)) <= Rank(StageOf(Replay(row, acts)))
    ensures IsSet(row.startDate) ==> Replay(row, acts).startDate == row.startDate
    ensures IsSet(row.stopDate) ==> Replay(row, acts).stopDate == row.stopDate
    ensures Replay(row, acts).title == row.title && Replay(row, acts).deleted == row.deleted
    decreases |acts|
  {
    if acts != [] {
      StepForward(row, acts[0]);
      ReplayForward(Apply(row, acts[0]), acts[1..]);
    }
  }

  /** No run goes from Unstarted to Stopped without passing through Started. */
  lemma {:induction false} StoppedOnlyAfterStarted(row: Row, acts: seq<Action>)
    requires Consistent(row) && StageOf(row) == Unstarted
    requires StageOf(Replay(row, acts)) == Stopped
    ensures exists k :: 0 < k < |acts| && StageOf(Replay(row, acts[..k])) == Started
    decreases |acts|
  {
    assert acts != [];
    var next := Apply(row, acts[0]);
    StepForward(row, acts[0]);
    assert acts[..1][1..] == [];
    assert Replay(row, acts[..1]) == next;
    assert Replay(row, acts) == Replay(next, acts[1..]);
    if StageOf(next) == Started {
      assert acts[1..] != [];
    } else {
      assert StageOf(next) == Unstarted;
      StoppedOnlyAfterStarted(next, acts[1..]);
      var k :| 0 < k < |acts[1..]| && StageOf(Replay(next, acts[1..][..k])) == Started;
      assert acts[..k + 1][1..] == acts[1..][..k];
      assert Replay(row, acts[..k + 1]) == Replay(next, acts[1..][..k]);
    }
  }

  /** The tournament table, updated in place by the mutating handlers. */
  class Store {
    var rows: Table
    var nextId: int

    /** Ids are below the next one to be handed out, and every row keeps the lifecycle invariant. */
    ghost predicate Valid()
      reads this
    {
      1 <= nextId && forall id :: id in rows ==> 1 <= id < nextId && Consistent(rows[id])
    }

    constructor ()
      ensures Valid() && rows == map[] && nextId == 1
    {
      rows := map[];
      nextId := 1;
    }

    /** add: create an unstarted row under a fresh id, then read it back. */
    method Add(title: string) returns (r: Result<Tournament>)
      requires Valid()
      modifies this
      ensures Valid() && nextId == old(nextId) + 1
      ensures old(nextId) !in old(rows)
      ensures rows == old(rows)[old(nextId) := Row(title, None, None, false)]
      ensures r == Ok(Tournament(old(nextId), title, None, None))
    {
      var id := nextId;
      rows := rows[id := Row(title, None, None, false)];
      nextId := nextId + 1;
      r := GetById(rows, id);
      if r.Fail? {
        r := Fail(Internal(CannotCreate));
      }
    }

    /** deleteById: soft-delete a live row; no row affected is NotFound. */
    method DeleteById(id: int) returns (r: Result<()>)
      requires Valid()
      modifies this
      ensures Valid() && nextId == old(nextId)
      ensures Live(old(rows), id) ==> r == Ok(()) && rows == old(rows)[id := old(rows)[id].(deleted := true)]
      ensures !Live(old(rows), id) ==> r == Fail(NotFound(Missing)) && rows == old(rows)
    {
      var removed := 0;
      if Live(rows, id) {
        rows := rows[id := rows[id].(deleted := true)];
        removed := 1;
      }
      if removed == 0 {
        r := Fail(NotFound(Missing));
      } else {
        r := Ok(());
      }
    }

    /** updateById: change the title of a live row, then read the row back (NotFound if it is not there). */
    method UpdateById(id: int, title: string) returns (r: Result<Tournament>)
      requires Valid()
      modifies this
      ensures Valid() && nextId == old(nextId)
      ensures Live(old(rows), id) ==> rows == old(rows)[id := old(rows)[id].(title := title)]
      ensures !Live(old(rows), id) ==> rows == old(rows)
      ensures r == GetById(rows, id)
      ensures r.Ok? <==> Live(old(rows), id)
    {
      if Live(rows, id) {
        rows := rows[id := rows[id].(title := title)];
      }
      r := GetById(rows, id);
    }

    /** start: record the start time of a live, unstarted tournament. */
    method Start(id: int, now: int) returns (r: Result<Tournament>)
      requires Valid()
      modifies this
      ensures Valid() && nextId == old(nextId)
      ensures !Live(old(rows), id) ==> r == Fail(NotFound(MissingForLifecycle)) && rows == old(rows)
      ensures Live(old(rows), id) && StartRow(old(rows)[id], now).Fail? ==>
                r == Fail(StartRow(old(rows)[id], now).error) && rows == old(rows)
      ensures Live(old(rows), id) && StartRow(old(rows)[id], now).Ok? ==>
                rows == old(rows)[id := StartRow(old(rows)[id], now).value] &&
                r == Ok(Project(id, rows[id]))
    {
      if !Live(rows, id) {
        r := Fail(NotFound(MissingForLifecycle));
        return;
      }
      var row := rows[id];
      if IsSet(row.stopDate) {
        r := Fail(BadRequest(HasEnded));
        return;
      }
      if IsSet(row.startDate) {
        r := Fail(BadRequest(AlreadyStarted));
        return;
      }
      var updated := row.(startDate := Some(now));
      rows := rows[id := updated];
      r := Ok(Tournament(id, updated.title, updated.startDate, updated.stopDate));
    }

    /** stop: record the stop time of a live, started, not yet stopped tournament. */
    method Stop(id: int, now: int) returns (r: Result<Tournament>)
      requires Valid()
      modifies this
      ensures Valid() && nextId == old(nextId)
      ensures !Live(old(rows), id) ==> r == Fail(NotFound(MissingForLifecycle)) && rows == old(rows)
      ensures Live(old(rows), id) && StopRow(old(rows)[id], now).Fail? ==>
                r == Fail(StopRow(old(rows)[id], now).error) && rows == old(rows)
      ensures Live(old(rows), id) && StopRow(old(rows)[id], now).Ok? ==>
                rows == old(rows)[id := StopRow(old(rows)[id], now).value] &&
                r == Ok(Project(id, rows[id]))
    {
      if !Live(rows, id) {
        r := Fail(NotFound(MissingForLifecycle));
        return;
      }
      var row := rows[id];
      if IsSet(row.stopDate) {
        r := Fail(BadRequest(AlreadyStopped));
        return;
      }
      if !IsSet(row.startDate) {
        r := Fail(BadRequest(NotStarted));
        return;
      }
      var updated := row.(stopDate := Some(now));
      rows := rows[id := updated];
      r := Ok(Tournament(id, updated.title, updated.startDate, updated.stopDate));
    }
  }

  /**
   * The lifecycle request sequences, derived from the handlers' contracts alone:
   * [create, stop] is refused as not started, [create, start, start] as already
   * started, [create, start, stop, stop] as already stopped and
   * [create, start, stop, start] as ended; getById after start shows the
   * returned startDate; a second delete is NotFound.
   */
  method LifecycleScenarios(t0: int, t1: int, t2: int)
    requires t0 != 0 && t1 != 0
  {
    var s := new Store();
    var created := s.Add("Spring Cup");
    var id := created.value.id;

    var r := s.Stop(id, t0);
    assert r == Fail(BadRequest(NotStarted));

    r := s.Start(id, t0);
    assert r.Ok? && r.value.startDate == Some(t0);
    assert GetById(s.rows, id) == r;

    r := s.Start(id, t1);
    assert r == Fail(BadRequest(AlreadyStarted));

    r := s.Stop(id, t1);
    assert r.Ok? && r.value.startDate == Some(t0) && r.value.stopDate == Some(t1);

    r := s.Stop(id, t2);
    assert r == Fail(BadRequest(AlreadyStopped));

    r := s.Start(id, t2);
    assert r == Fail(BadRequest(HasEnded));

    var d := s.DeleteById(id);
    assert d == Ok(());
    assert GetById(s.rows, id) == Fail(NotFound(Missing));
    d := s.DeleteById(id);
    assert d == Fail(NotFound(Missing));
    r := s.Start(id, t2);
    assert r == Fail(NotFound(MissingForLifecycle));
  }

  /** Paging over five live tournaments: limit 2 from offset 0 gives two, from offset 4 gives one. */
  method PagingScenario() {
    var s := new Store();
    var a := s.Add("A");
    a := s.Add("B");
    a := s.Add("C");
    a := s.Add("D");
    a := s.Add("E");
    assert s.nextId == 6;
    assert Listing(s.rows, 5, 6) == [Tournament(5, "E", None, None)];
    assert |Listing(s.rows, 1, 6)| == 5;
    assert |GetList(s.rows, s.nextId, Some(0), Some(2))| == 2;
    assert |GetList(s.rows, s.nextId, Some(4), Some(2))| == 1;
    assert |GetList(s.rows, s.nextId, None, Some(0))| == 5;
  }
}
