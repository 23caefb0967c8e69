/** The `history` table as the use cases see it: rows with an id and a
    timestamp both given by the database, so both grow with every insert.
    The session's `add`/`delete` followed by `commit` is one method here; a
    commit that raises leaves the table as it was. */
module HistoryStore {
  import opened Common

  /** A `History` row; the JSON columns are always null on the paths modelled.
      `targetLanguage` is the reader's language, a column the table of
      `backend/database.py` does not declare: `None` wherever nothing is
      stored in it. */
  datatype HistoryRow = HistoryRow(id: nat, prompt: string, result: string, targetLanguage: Option<string>, timestamp: nat)

  /** Strictly increasing ids and timestamps, in insertion order. */
  ghost predicate Increasing(rows: seq<HistoryRow>) {
    forall i, j :: 0 <= i < j < |rows| ==> rows[i].id < rows[j].id && rows[i].timestamp < rows[j].timestamp
  }

  /** Newest first: timestamps strictly decreasing. */
  ghost predicate NewestFirstOrder(rows: seq<HistoryRow>) {
    forall i, j :: 0 <= i < j < |rows| ==> rows[i].timestamp > rows[j].timestamp
  }

  function Reverse<T>(s: seq<T>): (r: seq<T>)
    ensures |r| == |s|
    ensures forall i :: 0 <= i < |s| ==> r[i] == s[|s| - 1 - i]
  {
    seq(|s|, i requires 0 <= i < |s| => s[|s| - 1 - i])
  }

  /** Listing by descending timestamp keeps every row once and orders them
      newest first. */
  lemma ReverseIsNewestFirst(rows: seq<HistoryRow>)
    requires Increasing(rows)
    ensures NewestFirstOrder(Reverse(rows))
    ensures multiset(Reverse(rows)) == multiset(rows)
  {
    ReverseMultiset(rows);
  }

  lemma {:induction false} ReverseMultiset<T>(s: seq<T>)
    ensures multiset(Reverse(s)) == multiset(s)
    decreases |s|
  {
    if s != [] {
      var t := s[1..];
      ReverseMultiset(t);
      assert Reverse(s) == Reverse(t) + [s[0]];
      assert s == [s[0]] + t;
    }
  }

  class HistoryDb {
    /** The rows, oldest first. */
    var rows: seq<HistoryRow>
    /** The id the next insert receives. */
    var nextId: nat
    /** The time the next insert is stamped with. */
    var clock: nat

    ghost predicate Valid()
      reads this
    {
      && Increasing(rows)
      && (forall i :: 0 <= i < |rows| ==> rows[i].id < nextId && rows[i].timestamp < clock)
    }

    constructor ()
      ensures Valid() && rows == []
    {
      rows := [];
      nextId := 1;
      clock := 0;
    }

    /** `db.query(History).order_by(History.timestamp.desc()).all()` */
    function NewestFirst(): (r: seq<HistoryRow>)
      reads this
      requires Valid()
      ensures NewestFirstOrder(r)
      ensures multiset(r) == multiset(rows)
    {
      ReverseIsNewestFirst(rows);
      Reverse(rows)
    }

    /** `db.query(History).filter(History.id == id).first()` */
    function Find(id: int): (r: Option<HistoryRow>)
      reads this
      ensures r.Some? ==> r.value in rows && r.value.id == id
      ensures r.None? <==> forall i :: 0 <= i < |rows| ==> rows[i].id != id
    {
      FindIn(rows, id)
    }

    /** `db.add(History(prompt=..., result=..., ...))` then `db.commit()`;
        `failure` is what the commit raises, if anything. */
    method Add(prompt: string, result: string, targetLanguage: Option<string>, failure: Option<Exception>)
      returns (r: Outcome<HistoryRow>)
      requires Valid()
      modifies this
      ensures Valid()
      ensures failure.Some? ==>
        && r == Raised(failure.value)
        && rows == old(rows) && nextId == old(nextId) && clock == old(clock)
      ensures failure.None? ==>
        && r == Ok(HistoryRow(old(nextId), prompt, result, targetLanguage, old(clock)))
        && rows == old(rows) + [r.value]
        && nextId == old(nextId) + 1 && clock == old(clock) + 1
    {
      if failure.Some? {
        return Raised(failure.value);
      }
      var row := HistoryRow(nextId, prompt, result, targetLanguage, clock);
      rows := rows + [row];
      nextId := nextId + 1;
      clock := clock + 1;
      r := Ok(row);
    }

    /** `db.delete(row)` then `db.commit()` for a row that is present. */
    method Remove(id: int, failure: Option<Exception>) returns (r: Outcome<()>)
      requires Valid()
      modifies this
      ensures Valid()
      ensures nextId == old(nextId) && clock == old(clock)
      ensures failure.Some? ==> r == Raised(failure.value) && rows == old(rows)
      ensures failure.None? ==> r == Ok(()) && rows == Without(old(rows), id)
    {
      if failure.Some? {
        return Raised(failure.value);
      }
      WithoutKeepsOrder(rows, id);
      WithoutBelow(rows, id, nextId, clock);
      rows := Without(rows, id);
      r := Ok(());
    }
  }

  function FindIn(rows: seq<HistoryRow>, id: int): (r: Option<HistoryRow>)
    ensures r.Some? ==> r.value in rows && r.value.id == id
    ensures r.None? <==> forall i :: 0 <= i < |rows| ==> rows[i].id != id
    decreases |rows|
  {
    if rows == [] then None
    else if rows[0].id == id then Some(rows[0])
    else FindIn(rows[1..], id)
  }

  /** The rows other than those with the id, in their order. */
  function Without(rows: seq<HistoryRow>, id: int): (r: seq<HistoryRow>)
    ensures forall i :: 0 <= i < |r| ==> r[i].id != id
    ensures |r| <= |rows|
    decreases |rows|
  {
    if rows == [] then []
    else if rows[0].id == id then Without(rows[1..], id)
    else [rows[0]] + Without(rows[1..], id)
  }

  /** Rows above given id and timestamp bounds stay above them after a removal. */
  lemma {:induction false} WithoutAbove(rows: seq<HistoryRow>, id: int, idLo: int, tsLo: int)
    requires forall i :: 0 <= i < |rows| ==> idLo < rows[i].id && tsLo < rows[i].timestamp
    ensures forall i :: 0 <= i < |Without(rows, id)| ==>
      idLo < Without(rows, id)[i].id && tsLo < Without(rows, id)[i].timestamp
    decreases |rows|
  {
    if rows != [] {
      WithoutAbove(rows[1..], id, idLo, tsLo);
    }
  }

  /** Rows below given id and timestamp bounds stay below them after a removal. */
  lemma {:induction false} WithoutBelow(rows: seq<HistoryRow>, id: int, idHi: int, tsHi: int)
    requires forall i :: 0 <= i < |rows| ==> rows[i].id < idHi && rows[i].timestamp < tsHi
    ensures forall i :: 0 <= i < |Without(rows, id)| ==>
      Without(rows, id)[i].id < idHi && Without(rows, id)[i].timestamp < tsHi
    decreases |rows|
  {
    if rows != [] {
      WithoutBelow(rows[1..], id, idHi, tsHi);
    }
  }

  /** Removing rows keeps the others in order, so ids and timestamps still grow. */
  lemma {:induction false} WithoutKeepsOrder(rows: seq<HistoryRow>, id: int)
    requires Increasing(rows)
    ensures Increasing(Without(rows, id))
    decreases |rows|
  {
    if rows != [] {
      IncreasingTail(rows);
      WithoutKeepsOrder(rows[1..], id);
      WithoutAbove(rows[1..], id, rows[0].id, rows[0].timestamp);
    }
  }

  lemma IncreasingTail(rows: seq<HistoryRow>)
    requires Increasing(rows) && rows != []
    ensures Increasing(rows[1..])
    ensures forall i :: 0 <= i < |rows[1..]| ==>
      rows[0].id < rows[1..][i].id && rows[0].timestamp < rows[1..][i].timestamp
  {
    var tail := rows[1..];
    forall i, j | 0 <= i < j < |tail|
      ensures tail[i].id < tail[j].id && tail[i].timestamp < tail[j].timestamp
    {
      assert tail[i] == rows[i + 1] && tail[j] == rows[j + 1];
    }
    forall i | 0 <= i < |tail| ensures rows[0].id < tail[i].id && rows[0].timestamp < tail[i].timestamp {
      assert tail[i] == rows[i + 1];
    }
  }

  /** With unique ids, removing one row's id takes out exactly that row. */
  lemma {:induction false} WithoutRemovesOne(rows: seq<HistoryRow>, k: nat)
    requires Increasing(rows) && k < |rows|
    ensures Without(rows, rows[k].id) == rows[..k] + rows[k + 1..]
    decreases |rows|
  {
    var tail := rows[1..];
    IncreasingTail(rows);
    if k == 0 {
      WithoutAbsent(tail, rows[0].id);
    } else {
      assert tail[k - 1] == rows[k];
      WithoutRemovesOne(tail, k - 1);
      assert rows[..k] == [rows[0]] + tail[..k - 1];
      assert rows[k + 1..] == tail[k..];
    }
  }

  /** Deleting an id that is present takes out exactly one row. */
  lemma WithoutFoundShrinks(rows: seq<HistoryRow>, id: int)
    requires Increasing(rows) && FindIn(rows, id).Some?
    ensures |Without(rows, id)| == |rows| - 1
  {
    var k :| 0 <= k < |rows| && rows[k] == FindIn(rows, id).value;
    WithoutRemovesOne(rows, k);
  }

  lemma {:induction false} WithoutAbsent(rows: seq<HistoryRow>, id: int)
    requires forall i :: 0 <= i < |rows| ==> rows[i].id != id
    ensures Without(rows, id) == rows
    decreases |rows|
  {
    if rows != [] {
      WithoutAbsent(rows[1..], id);
    }
  }
}
