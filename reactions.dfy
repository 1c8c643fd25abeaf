/**
 * Reaction statistics (`fetch_reaction_stats`): the rows of the grouped
 * reaction query become `{type, count}` records, in the order fetched. The
 * query's meaning (group the uid's reactions by type, count each group,
 * order by count descending) is stated by `IsReactionAggregate`, with a
 * reference implementation `GroupCounts`.
 */
module Reactions {
  import opened Wrappers
  import opened Store

  /** One `{"type": reac_type, "count": cnt}` record. */
  datatype ReactionStat = ReactionStat(reactionType: Value, count: Value)

  /**
   * Why fetching the statistics can fail: a database error (caught by the
   * request handler), or a row that does not unpack into a (type, count) pair
   * (a Python `ValueError`, which nothing catches).
   */
  datatype StatsError = DatabaseError(message: string) | UnpackError

  /** The list comprehension over the fetched rows: one record per row, in order. */
  function ToRecords(rows: seq<Row>): (r: Option<seq<ReactionStat>>)
    ensures r.Some? <==> forall i :: 0 <= i < |rows| ==> |rows[i]| == 2
    ensures r.Some? ==> |r.value| == |rows|
    ensures r.Some? ==> forall i :: 0 <= i < |rows| ==> r.value[i] == ReactionStat(rows[i][0], rows[i][1])
  {
    if rows == [] then Some([])
    else if |rows[0]| != 2 then None
    else match ToRecords(rows[1..])
      case None => None
      case Some(rest) => Some([ReactionStat(rows[0][0], rows[0][1])] + rest)
  }

  /** `fetch_reaction_stats`: runs the grouped query for `uid` and maps its rows to records. */
  method FetchReactionStats(cursor: Cursor, uid: string) returns (r: Result<seq<ReactionStat>, StatsError>)
    modifies cursor
    ensures cursor.executed == old(cursor.executed) + [ReactionCounts(uid)]
    ensures match cursor.answer(ReactionCounts(uid))
            case Error(m) => r == Failure(DatabaseError(m))
            case Rows(_, rows) =>
              (if ToRecords(rows).Some? then r == Success(ToRecords(rows).value) else r == Failure(UnpackError))
  {
    var error := cursor.Execute(ReactionCounts(uid));
    if error.Some? {
      return Failure(DatabaseError(error.value));
    }
    var rows := cursor.FetchAll();
    var records := ToRecords(rows);
    if records.None? {
      return Failure(UnpackError);
    }
    r := Success(records.value);
  }

  // ---------------------------------------------------------------------------
  // The meaning of the grouped query

  /** How many of `types` equal `t` (`COUNT(*)` of the group of `t`). */
  function Occurrences(types: seq<Value>, t: Value): (n: nat)
    ensures n <= |types|
  {
    if types == [] then 0 else (if types[0] == t then 1 else 0) + Occurrences(types[1..], t)
  }

  function TypesOf(stats: seq<ReactionStat>): (ts: seq<Value>)
    ensures |ts| == |stats|
    ensures forall i :: 0 <= i < |stats| ==> ts[i] == stats[i].reactionType
  {
    seq(|stats|, i requires 0 <= i < |stats| => stats[i].reactionType)
  }

  predicate Distinct(us: seq<Value>)
  {
    forall i, j :: 0 <= i < j < |us| ==> us[i] != us[j]
  }

  /**
   * `stats` is a possible result of the grouped query over the reaction types
   * `types` of one uid: one record for each type that occurs and for no
   * other, its count that type's number of occurrences, and the records in
   * non-increasing order of count. The order of equal counts is left open.
   */
  predicate IsReactionAggregate(types: seq<Value>, stats: seq<ReactionStat>)
  {
    && (forall i :: 0 <= i < |types| ==> types[i] in TypesOf(stats))
    && (forall i :: 0 <= i < |stats| ==> stats[i].reactionType in types)
    && Distinct(TypesOf(stats))
    && (forall i :: 0 <= i < |stats| ==> stats[i].count == Int(Occurrences(types, stats[i].reactionType)))
    && (forall i, j :: 0 <= i < j < |stats| ==>
          Occurrences(types, stats[i].reactionType) >= Occurrences(types, stats[j].reactionType))
  }

  /** The sum of the counts of the records. */
  function TotalCount(stats: seq<ReactionStat>): int
  {
    if stats == [] then 0
    else (if stats[0].count.Int? then stats[0].count.i else 0) + TotalCount(stats[1..])
  }

  lemma {:induction false} OccurrencesPositive(types: seq<Value>, t: Value)
    requires t in types
    ensures Occurrences(types, t) >= 1
  {
    if types[0] != t {
      OccurrencesPositive(types[1..], t);
    }
  }

  lemma {:induction false} OccurrencesAbsent(types: seq<Value>, t: Value)
    requires t !in types
    ensures Occurrences(types, t) == 0
  {
    if types != [] {
      OccurrencesAbsent(types[1..], t);
    }
  }

  lemma {:induction false} OccurrencesDistinct(us: seq<Value>, t: Value)
    requires Distinct(us) && t in us
    ensures Occurrences(us, t) == 1
  {
    if us[0] == t {
      OccurrencesAbsent(us[1..], t);
    } else {
      OccurrencesDistinct(us[1..], t);
    }
  }

  /** A uid with no reactions has no statistics, and one with reactions has some. */
  lemma AggregateEmptyIff(types: seq<Value>, stats: seq<ReactionStat>)
    requires IsReactionAggregate(types, stats)
    ensures types == [] <==> stats == []
  {
    if types != [] {
      assert types[0] in TypesOf(stats);
      assert |TypesOf(stats)| > 0;
    }
    if stats != [] {
      assert stats[0].reactionType in types;
    }
  }

  /** Every count in an aggregate is at least one. */
  lemma AggregateCountsPositive(types: seq<Value>, stats: seq<ReactionStat>)
    requires IsReactionAggregate(types, stats)
    ensures forall i :: 0 <= i < |stats| ==> stats[i].count.Int? && stats[i].count.i >= 1
  {
    forall i | 0 <= i < |stats| ensures stats[i].count.Int? && stats[i].count.i >= 1 {
      assert TypesOf(stats)[i] == stats[i].reactionType;
      OccurrencesPositive(types, stats[i].reactionType);
    }
  }

  /** The number of occurrences, in `types`, of each of `us`, summed. */
  function SumOccurrences(us: seq<Value>, types: seq<Value>): nat
  {
    if us == [] then 0 else Occurrences(types, us[0]) + SumOccurrences(us[1..], types)
  }

  lemma {:induction false} SumOccurrencesEmpty(us: seq<Value>)
    ensures SumOccurrences(us, []) == 0
  {
    if us != [] {
      SumOccurrencesEmpty(us[1..]);
    }
  }

  lemma {:induction false} SumOccurrencesCons(us: seq<Value>, t: Value, rest: seq<Value>)
    ensures SumOccurrences(us, [t] + rest) == SumOccurrences(us, rest) + Occurrences(us, t)
  {
    if us != [] {
      assert ([t] + rest)[1..] == rest;
      SumOccurrencesCons(us[1..], t, rest);
    }
  }

  /** Summing over distinct `us` that cover `types` counts every element of `types` once. */
  lemma {:induction false} SumOccurrencesCovers(us: seq<Value>, types: seq<Value>)
    requires Distinct(us)
    requires forall t :: t in types ==> t in us
    ensures SumOccurrences(us, types) == |types|
  {
    if types == [] {
      SumOccurrencesEmpty(us);
    } else {
      var t, rest := types[0], types[1..];
      assert types == [t] + rest;
      SumOccurrencesCons(us, t, rest);
      OccurrencesDistinct(us, t);
      SumOccurrencesCovers(us, rest);
    }
  }

  lemma {:induction false} TotalCountIsSum(types: seq<Value>, stats: seq<ReactionStat>)
    requires forall i :: 0 <= i < |stats| ==> stats[i].count == Int(Occurrences(types, stats[i].reactionType))
    ensures TotalCount(stats) == SumOccurrences(TypesOf(stats), types)
  {
    if stats != [] {
      assert TypesOf(stats)[1..] == TypesOf(stats[1..]);
      TotalCountIsSum(types, stats[1..]);
    }
  }

  /** The counts of an aggregate add up to the number of reaction rows. */
  lemma AggregateTotal(types: seq<Value>, stats: seq<ReactionStat>)
    requires IsReactionAggregate(types, stats)
    ensures TotalCount(stats) == |types|
  {
    TotalCountIsSum(types, stats);
    SumOccurrencesCovers(TypesOf(stats), types);
  }

  /**
   * Two aggregates of the same reaction types hold the same records: the
   * query result is determined up to the order of records with equal counts.
   */
  lemma AggregateUnique(types: seq<Value>, a: seq<ReactionStat>, b: seq<ReactionStat>)
    requires IsReactionAggregate(types, a) && IsReactionAggregate(types, b)
    ensures multiset(a) == multiset(b)
  {
    forall x ensures x in a <==> x in b {
      if x in a {
        var i :| 0 <= i < |a| && a[i] == x;
        assert TypesOf(a)[i] == x.reactionType;
        var j :| 0 <= j < |b| && TypesOf(b)[j] == x.reactionType;
        assert b[j] == x;
      }
      if x in b {
        var j :| 0 <= j < |b| && b[j] == x;
        assert TypesOf(b)[j] == x.reactionType;
        var i :| 0 <= i < |a| && TypesOf(a)[i] == x.reactionType;
        assert a[i] == x;
      }
    }
    DistinctRecords(a);
    DistinctRecords(b);
    assert multiset(a) == multiset(b) by {
      forall x ensures multiset(a)[x] == multiset(b)[x] {
        RecordMultiplicity(a, x);
        RecordMultiplicity(b, x);
      }
    }
  }

  predicate DistinctStats(stats: seq<ReactionStat>)
  {
    forall i, j :: 0 <= i < j < |stats| ==> stats[i] != stats[j]
  }

  lemma DistinctRecords(stats: seq<ReactionStat>)
    requires Distinct(TypesOf(stats))
    ensures DistinctStats(stats)
  {
    forall i, j | 0 <= i < j < |stats| ensures stats[i] != stats[j] {
      assert TypesOf(stats)[i] != TypesOf(stats)[j];
    }
  }

  lemma {:induction false} RecordMultiplicity(stats: seq<ReactionStat>, x: ReactionStat)
    requires DistinctStats(stats)
    ensures multiset(stats)[x] == if x in stats then 1 else 0
  {
    if stats != [] {
      assert stats == [stats[0]] + stats[1..];
      assert multiset(stats) == multiset{stats[0]} + multiset(stats[1..]);
      RecordMultiplicity(stats[1..], x);
    }
  }

  // ---------------------------------------------------------------------------
  // A reference implementation of the grouped query

  /** The distinct values of `s`, each kept at its last occurrence. */
  function Dedup(s: seq<Value>): (us: seq<Value>)
    ensures Distinct(us)
    ensures forall x :: x in us <==> x in s
  {
    if s == [] then []
    else if s[0] in s[1..] then Dedup(s[1..])
    else [s[0]] + Dedup(s[1..])
  }

  predicate SortedByCount(us: seq<Value>, types: seq<Value>)
  {
    forall i, j :: 0 <= i < j < |us| ==> Occurrences(types, us[i]) >= Occurrences(types, us[j])
  }

  /** Inserts `u` before the first element with a smaller count. */
  function Insert(u: Value, us: seq<Value>, types: seq<Value>): (r: seq<Value>)
    ensures |r| == |us| + 1
    ensures forall x :: x in r <==> x == u || x in us
    ensures multiset(r) == multiset{u} + multiset(us)
  {
    if us == [] || Occurrences(types, u) >= Occurrences(types, us[0]) then [u] + us
    else
      assert us == [us[0]] + us[1..];
      [us[0]] + Insert(u, us[1..], types)
  }

  lemma {:induction false} InsertDistinct(u: Value, us: seq<Value>, types: seq<Value>)
    requires u !in us && Distinct(us)
    ensures Distinct(Insert(u, us, types))
  {
    if !(us == [] || Occurrences(types, u) >= Occurrences(types, us[0])) {
      InsertDistinct(u, us[1..], types);
      var rest := Insert(u, us[1..], types);
      assert us[0] !in rest;
      assert forall j :: 0 < j < |rest| + 1 ==> ([us[0]] + rest)[j] == rest[j - 1];
    }
  }

  /** A sorted sequence stays sorted under a new head whose count is at least every other count. */
  lemma SortedCons(x: Value, rest: seq<Value>, types: seq<Value>)
    requires SortedByCount(rest, types)
    requires forall j :: 0 <= j < |rest| ==> Occurrences(types, x) >= Occurrences(types, rest[j])
    ensures SortedByCount([x] + rest, types)
  {
    var r := [x] + rest;
    assert r[0] == x;
    assert forall j :: 1 <= j < |r| ==> r[j] == rest[j - 1];
  }

  lemma {:induction false} InsertSorted(u: Value, us: seq<Value>, types: seq<Value>)
    requires SortedByCount(us, types)
    ensures SortedByCount(Insert(u, us, types), types)
  {
    if us == [] || Occurrences(types, u) >= Occurrences(types, us[0]) {
      SortedCons(u, us, types);
    } else {
      var tail := us[1..];
      assert SortedByCount(tail, types) by {
        forall i, j | 0 <= i < j < |tail| ensures Occurrences(types, tail[i]) >= Occurrences(types, tail[j]) {
          assert tail[i] == us[i + 1] && tail[j] == us[j + 1];
        }
      }
      InsertSorted(u, tail, types);
      var rest := Insert(u, tail, types);
      forall j | 0 <= j < |rest| ensures Occurrences(types, us[0]) >= Occurrences(types, rest[j]) {
        assert rest[j] in rest;
        if rest[j] != u {
          var k :| 0 <= k < |tail| && tail[k] == rest[j];
          assert us[k + 1] == rest[j];
        }
      }
      SortedCons(us[0], rest, types);
    }
  }

  /** Insertion sort by count, largest first. */
  function SortByCount(us: seq<Value>, types: seq<Value>): (r: seq<Value>)
    ensures forall x :: x in r <==> x in us
    ensures multiset(r) == multiset(us)
    ensures SortedByCount(r, types)
  {
    if us == [] then []
    else
      var sorted := SortByCount(us[1..], types);
      assert us == [us[0]] + us[1..];
      InsertSorted(us[0], sorted, types);
      Insert(us[0], sorted, types)
  }

  lemma {:induction false} SortByCountDistinct(us: seq<Value>, types: seq<Value>)
    requires Distinct(us)
    ensures Distinct(SortByCount(us, types))
  {
    if us != [] {
      SortByCountDistinct(us[1..], types);
      InsertDistinct(us[0], SortByCount(us[1..], types), types);
    }
  }

  function Records(us: seq<Value>, types: seq<Value>): (stats: seq<ReactionStat>)
    ensures TypesOf(stats) == us
    ensures forall i :: 0 <= i < |stats| ==> stats[i].count == Int(Occurrences(types, us[i]))
  {
    seq(|us|, i requires 0 <= i < |us| => ReactionStat(us[i], Int(Occurrences(types, us[i]))))
  }

  /** One result the grouped query may return for the reaction types `types`. */
  function GroupCounts(types: seq<Value>): (stats: seq<ReactionStat>)
    ensures IsReactionAggregate(types, stats)
  {
    SortByCountDistinct(Dedup(types), types);
    Records(SortByCount(Dedup(types), types), types)
  }

  /** [like: 3, love: 1] is an aggregate of the reactions [like, love, like, like]. */
  lemma LikeLoveAggregate()
    ensures IsReactionAggregate([Text("like"), Text("love"), Text("like"), Text("like")],
                                [ReactionStat(Text("like"), Int(3)), ReactionStat(Text("love"), Int(1))])
  {
    var types := [Text("like"), Text("love"), Text("like"), Text("like")];
    var expected := [ReactionStat(Text("like"), Int(3)), ReactionStat(Text("love"), Int(1))];
    assert Occurrences(types, Text("like")) == 3;
    assert Occurrences(types, Text("love")) == 1;
    assert TypesOf(expected) == [Text("like"), Text("love")];
  }

  /** The aggregate of reactions [like, love, like, like] is [like: 3, love: 1], whatever the store's tie order. */
  lemma LikeLoveExample(stats: seq<ReactionStat>)
    requires IsReactionAggregate([Text("like"), Text("love"), Text("like"), Text("like")], stats)
    ensures stats == [ReactionStat(Text("like"), Int(3)), ReactionStat(Text("love"), Int(1))]
  {
    var types := [Text("like"), Text("love"), Text("like"), Text("like")];
    var like, love := ReactionStat(Text("like"), Int(3)), ReactionStat(Text("love"), Int(1));
    LikeLoveAggregate();
    AggregateUnique(types, stats, [like, love]);
    assert |stats| == 2 by {
      assert |multiset(stats)| == |multiset([like, love])|;
    }
    assert stats[0] in multiset([like, love]) && stats[1] in multiset([like, love]);
    assert stats[0] != stats[1] by {
      assert TypesOf(stats)[0] != TypesOf(stats)[1];
    }
    assert stats[0] == like by {
      assert Occurrences(types, Text("like")) == 3;
      assert Occurrences(types, Text("love")) == 1;
    }
  }

  // ---------------------------------------------------------------------------
  // Agreement with the store

  /** The position of the first column called `name`, if any. */
  function ColumnIndex(names: seq<string>, name: string): (k: Option<nat>)
    ensures k.Some? ==> k.value < |names| && names[k.value] == name
    ensures k.None? ==> name !in names
  {
    if names == [] then None
    else if names[0] == name then Some(0)
    else match ColumnIndex(names[1..], name)
      case None => None
      case Some(k) => Some(k + 1)
  }

  /** Column `k` of every row. */
  function ColumnValues(rows: seq<Row>, k: nat): (c: seq<Value>)
    requires forall i :: 0 <= i < |rows| ==> k < |rows[i]|
    ensures |c| == |rows|
    ensures forall i :: 0 <= i < |rows| ==> c[i] == rows[i][k]
  {
    seq(|rows|, i requires 0 <= i < |rows| => rows[i][k])
  }

  /**
   * The store answers the grouped query for `uid` as its SQL means: the
   * records aggregate the `reac_type` column of the rows that the plain
   * reactions lookup for `uid` returns.
   */
  predicate StatsAgree(answer: Query -> Response, uid: string)
  {
    var reactions := answer(SelectWhere("reactions", "reac_user_id", uid));
    var counts := answer(ReactionCounts(uid));
    reactions.Rows? && counts.Rows? ==>
      var k := ColumnIndex(Names(reactions.description), "reac_type");
      && k.Some?
      && (forall i :: 0 <= i < |reactions.rows| ==> k.value < |reactions.rows[i]|)
      && ToRecords(counts.rows).Some?
      && IsReactionAggregate(ColumnValues(reactions.rows, k.value), ToRecords(counts.rows).value)
  }

  /**
   * Under `StatsAgree`, the fetched records are an aggregate of the
   * `reac_type` column of the uid's reaction rows: each type of those rows
   * appears exactly once, no other type appears, each count is that type's
   * number of rows, the counts are positive and non-increasing, and they add
   * up to the number of the uid's reaction rows.
   */
  lemma StatsMeaning(answer: Query -> Response, uid: string)
    requires StatsAgree(answer, uid)
    requires answer(SelectWhere("reactions", "reac_user_id", uid)).Rows?
    requires answer(ReactionCounts(uid)).Rows?
    ensures var reactions := answer(SelectWhere("reactions", "reac_user_id", uid));
            var k := ColumnIndex(Names(reactions.description), "reac_type");
            var stats := ToRecords(answer(ReactionCounts(uid)).rows);
            && k.Some?
            && (forall i :: 0 <= i < |reactions.rows| ==> k.value < |reactions.rows[i]|)
            && stats.Some?
            && IsReactionAggregate(ColumnValues(reactions.rows, k.value), stats.value)
            && (forall i :: 0 <= i < |stats.value| ==> stats.value[i].count.Int? && stats.value[i].count.i >= 1)
            && (forall i, j :: 0 <= i < j < |stats.value| ==> stats.value[i].count.i >= stats.value[j].count.i)
            && TotalCount(stats.value) == |reactions.rows|
  {
    var reactions := answer(SelectWhere("reactions", "reac_user_id", uid));
    var k := ColumnIndex(Names(reactions.description), "reac_type");
    var types := ColumnValues(reactions.rows, k.value);
    var stats := ToRecords(answer(ReactionCounts(uid)).rows).value;
    AggregateCountsPositive(types, stats);
    AggregateTotal(types, stats);
  }
}
