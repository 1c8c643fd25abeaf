/**
 * The lookup fan-out (`query_phone`, `query_by_uid`): each lookup runs one
 * statement and stores its column names and rows under a key of the two
 * dictionaries that the request handler owns.
 */
module Lookup {
  import opened Wrappers
  import opened Store

  /** The `results` and `column_names` dictionaries, updated in place by the lookups. */
  class ResultMaps {
    var results: map<string, seq<Row>>
    var columnNames: map<string, seq<string>>

    constructor ()
      ensures results == map[] && columnNames == map[]
    {
      results := map[];
      columnNames := map[];
    }
  }

  /** The statement `query_phone` runs. */
  function PhoneQuery(phone: string): (q: Query)
    ensures q.SelectWhere? && q.table == "fbphone" && q.column == "eightdigitnumbers" && q.param == phone
  {
    SelectWhere("fbphone", "eightdigitnumbers", phone)
  }

  /** `lookup_queries` of `query_by_uid`: (key, statement) pairs in dictionary order. */
  function UidLookups(uid: string): (lookups: seq<(string, Query)>)
    ensures |lookups| == 5 && DistinctKeys(lookups)
    ensures forall i :: 0 <= i < |lookups| ==>
              && lookups[i].1.SelectWhere? && lookups[i].1.table == lookups[i].0 && lookups[i].1.param == uid
              && lookups[i].1.column != "eightdigitnumbers"
  {
    [ ("profiles", SelectWhere("profiles", "profile_id", uid)),
      ("posts", SelectWhere("posts", "post_user_id", uid)),
      ("comments", SelectWhere("comments", "com_user_id", uid)),
      ("reactions", SelectWhere("reactions", "reac_user_id", uid)),
      ("fbphone", SelectWhere("fbphone", "uid", uid)) ]
  }

  /** The two dictionaries after a run of lookups, and the database error that stopped it, if any. */
  datatype LookupState = LookupState(results: map<string, seq<Row>>,
                                     columnNames: map<string, seq<string>>,
                                     failure: Option<string>)

  /**
   * Runs the lookups in order, writing each answered one into both maps; the
   * first database error ends the run and leaves what was already written.
   */
  function RunLookups(answer: Query -> Response, lookups: seq<(string, Query)>,
                      results: map<string, seq<Row>>, columnNames: map<string, seq<string>>): (r: LookupState)
    ensures results.Keys <= r.results.Keys && columnNames.Keys <= r.columnNames.Keys
    decreases |lookups|
  {
    if lookups == [] then LookupState(results, columnNames, None)
    else
      var (key, q) := lookups[0];
      match answer(q)
      case Error(m) => LookupState(results, columnNames, Some(m))
      case Rows(d, rows) => RunLookups(answer, lookups[1..], results[key := rows], columnNames[key := Names(d)])
  }

  /** The position of the first lookup whose statement fails, or the number of lookups. */
  function FirstFailure(answer: Query -> Response, lookups: seq<(string, Query)>): (n: nat)
    ensures n <= |lookups|
    ensures forall j :: 0 <= j < n ==> answer(lookups[j].1).Rows?
    ensures n < |lookups| ==> answer(lookups[n].1).Error?
    decreases |lookups|
  {
    if lookups == [] || answer(lookups[0].1).Error? then 0
    else 1 + FirstFailure(answer, lookups[1..])
  }

  /** The statements a run of lookups sends: all up to and including the first that fails. */
  function Issued(answer: Query -> Response, lookups: seq<(string, Query)>): seq<Query>
  {
    var n := FirstFailure(answer, lookups);
    Queries(lookups[..if n < |lookups| then n + 1 else n])
  }

  function Queries(lookups: seq<(string, Query)>): (qs: seq<Query>)
    ensures |qs| == |lookups|
    ensures forall i :: 0 <= i < |lookups| ==> qs[i] == lookups[i].1
  {
    seq(|lookups|, i requires 0 <= i < |lookups| => lookups[i].1)
  }

  /** The keys the lookups write under. */
  function Keys(lookups: seq<(string, Query)>): set<string>
  {
    if lookups == [] then {} else {lookups[0].0} + Keys(lookups[1..])
  }

  lemma {:induction false} KeysMembership(lookups: seq<(string, Query)>, k: string)
    ensures k in Keys(lookups) <==> exists i :: 0 <= i < |lookups| && lookups[i].0 == k
  {
    if lookups != [] {
      KeysMembership(lookups[1..], k);
      if k in Keys(lookups[1..]) {
        var i :| 0 <= i < |lookups| - 1 && lookups[1..][i].0 == k;
        assert lookups[i + 1].0 == k;
      }
      if exists i :: 0 <= i < |lookups| && lookups[i].0 == k {
        var i :| 0 <= i < |lookups| && lookups[i].0 == k;
        if i > 0 {
          assert lookups[1..][i - 1].0 == k;
        }
      }
    }
  }

  predicate DistinctKeys(lookups: seq<(string, Query)>)
  {
    forall i, j :: 0 <= i < j < |lookups| ==> lookups[i].0 != lookups[j].0
  }

  /** `k` is absent from both maps, or present in both with the same value. */
  predicate EqualOnKey<V(==)>(m: map<string, V>, m': map<string, V>, k: string)
  {
    (k !in m && k !in m') || (k in m && k in m' && m[k] == m'[k])
  }

  /** The keys of a non-empty prefix: the first key and the keys of the rest of the prefix. */
  lemma KeysOfPrefix(lookups: seq<(string, Query)>, n: nat)
    requires 0 < n <= |lookups|
    ensures Keys(lookups[..n]) == {lookups[0].0} + Keys(lookups[1..][..n - 1])
  {
    assert lookups[..n][1..] == lookups[1..][..n - 1];
  }

  /**
   * A run fails exactly when some lookup's statement fails, with the first
   * failing statement's message.
   */
  lemma {:induction false} RunLookupsOutcome(answer: Query -> Response, lookups: seq<(string, Query)>,
                                             results: map<string, seq<Row>>, columnNames: map<string, seq<string>>)
    ensures var s := RunLookups(answer, lookups, results, columnNames);
            var n := FirstFailure(answer, lookups);
            && (s.failure == None <==> n == |lookups|)
            && (n < |lookups| ==> s.failure == Some(answer(lookups[n].1).message))
    decreases |lookups|
  {
    if lookups != [] && answer(lookups[0].1).Rows? {
      var (key, q) := lookups[0];
      var d, rows := answer(q).description, answer(q).rows;
      RunLookupsOutcome(answer, lookups[1..], results[key := rows], columnNames[key := Names(d)]);
    }
  }

  /** A run adds to both maps exactly the keys of the lookups before the first failure. */
  lemma {:induction false} RunLookupsKeys(answer: Query -> Response, lookups: seq<(string, Query)>,
                                          results: map<string, seq<Row>>, columnNames: map<string, seq<string>>)
    ensures var s := RunLookups(answer, lookups, results, columnNames);
            var written := Keys(lookups[..FirstFailure(answer, lookups)]);
            && s.results.Keys == results.Keys + written
            && s.columnNames.Keys == columnNames.Keys + written
    decreases |lookups|
  {
    if lookups != [] && answer(lookups[0].1).Rows? {
      var (key, q) := lookups[0];
      var d, rows := answer(q).description, answer(q).rows;
      var rest, r', c' := lookups[1..], results[key := rows], columnNames[key := Names(d)];
      RunLookupsKeys(answer, rest, r', c');
      var n := FirstFailure(answer, lookups);
      assert n - 1 == FirstFailure(answer, rest);
      KeysOfPrefix(lookups, n);
      var t := RunLookups(answer, rest, r', c');
      assert RunLookups(answer, lookups, results, columnNames) == t;
      UpdatedKeys(results, key, rows, Keys(rest[..n - 1]), t.results.Keys);
      UpdatedKeys(columnNames, key, Names(d), Keys(rest[..n - 1]), t.columnNames.Keys);
    } else {
      assert lookups[..0] == [];
    }
  }

  lemma UpdatedKeys<V>(m: map<string, V>, k: string, v: V, w: set<string>, ks: set<string>)
    requires ks == m[k := v].Keys + w
    ensures ks == m.Keys + ({k} + w)
  {
  }

  /** A run leaves every key outside those of the lookups before the first failure as it was. */
  lemma {:induction false} RunLookupsFrame(answer: Query -> Response, lookups: seq<(string, Query)>,
                                           results: map<string, seq<Row>>, columnNames: map<string, seq<string>>)
    ensures var s := RunLookups(answer, lookups, results, columnNames);
            var written := Keys(lookups[..FirstFailure(answer, lookups)]);
            forall k :: k !in written ==> EqualOnKey(results, s.results, k) && EqualOnKey(columnNames, s.columnNames, k)
    decreases |lookups|
  {
    if lookups != [] && answer(lookups[0].1).Rows? {
      var (key, q) := lookups[0];
      var d, rows := answer(q).description, answer(q).rows;
      RunLookupsFrame(answer, lookups[1..], results[key := rows], columnNames[key := Names(d)]);
      var n := FirstFailure(answer, lookups);
      assert n - 1 == FirstFailure(answer, lookups[1..]);
      KeysOfPrefix(lookups, n);
      var s := RunLookups(answer, lookups, results, columnNames);
      assert s == RunLookups(answer, lookups[1..], results[key := rows], columnNames[key := Names(d)]);
      forall k | k !in Keys(lookups[..n])
        ensures EqualOnKey(results, s.results, k) && EqualOnKey(columnNames, s.columnNames, k)
      {
        assert k != key;
      }
    }
  }

  /** The keys of a prefix are keys of the whole sequence. */
  lemma KeysOfPrefixSubset(lookups: seq<(string, Query)>, n: nat)
    requires n <= |lookups|
    ensures Keys(lookups[..n]) <= Keys(lookups)
  {
    forall k | k in Keys(lookups[..n]) ensures k in Keys(lookups) {
      KeysMembership(lookups[..n], k);
      var i :| 0 <= i < n && lookups[..n][i].0 == k;
      assert lookups[i] == lookups[..n][i];
      KeysMembership(lookups, k);
    }
  }

  /**
   * With distinct keys, every lookup before the first failure leaves its key
   * holding that statement's rows and the names of its description.
   */
  lemma {:induction false} RunLookupsWrites(answer: Query -> Response, lookups: seq<(string, Query)>,
                                            results: map<string, seq<Row>>, columnNames: map<string, seq<string>>)
    requires DistinctKeys(lookups)
    ensures var s := RunLookups(answer, lookups, results, columnNames);
            forall i :: 0 <= i < FirstFailure(answer, lookups) ==>
              && lookups[i].0 in s.results && s.results[lookups[i].0] == answer(lookups[i].1).rows
              && lookups[i].0 in s.columnNames && s.columnNames[lookups[i].0] == Names(answer(lookups[i].1).description)
    decreases |lookups|
  {
    if lookups != [] && answer(lookups[0].1).Rows? {
      var (key, q) := lookups[0];
      var d, rows := answer(q).description, answer(q).rows;
      var r', c' := results[key := rows], columnNames[key := Names(d)];
      RunLookupsWrites(answer, lookups[1..], r', c');
      RunLookupsFrame(answer, lookups[1..], r', c');
      var n := FirstFailure(answer, lookups);
      assert n - 1 == FirstFailure(answer, lookups[1..]);
      assert key !in Keys(lookups[1..][..n - 1]) by {
        var later := lookups[1..][..n - 1];
        KeysMembership(later, key);
        assert forall i :: 0 <= i < |later| ==> later[i] == lookups[i + 1];
      }
      var s, s' := RunLookups(answer, lookups, results, columnNames), RunLookups(answer, lookups[1..], r', c');
      assert s == s';
      forall i | 0 <= i < n
        ensures && lookups[i].0 in s.results && s.results[lookups[i].0] == answer(lookups[i].1).rows
                && lookups[i].0 in s.columnNames && s.columnNames[lookups[i].0] == Names(answer(lookups[i].1).description)
      {
        if i > 0 {
          assert lookups[i] == lookups[1..][i - 1];
          assert i - 1 < FirstFailure(answer, lookups[1..]);
        } else {
          assert lookups[i].0 == key && lookups[i].1 == q;
          assert EqualOnKey(r', s'.results, key) && EqualOnKey(c', s'.columnNames, key);
        }
      }
    }
  }

  /** `query_phone`: one statement, written under "fbphone" in both maps. */
  method QueryPhone(cursor: Cursor, phone: string, maps: ResultMaps) returns (error: Option<string>)
    modifies cursor, maps
    ensures cursor.executed == old(cursor.executed) + [PhoneQuery(phone)]
    ensures match cursor.answer(PhoneQuery(phone))
            case Rows(d, rows) =>
              && error == None
              && maps.results == old(maps.results)["fbphone" := rows]
              && maps.columnNames == old(maps.columnNames)["fbphone" := Names(d)]
            case Error(m) =>
              && error == Some(m)
              && maps.results == old(maps.results) && maps.columnNames == old(maps.columnNames)
  {
    error := LookupInto(cursor, "fbphone", PhoneQuery(phone), maps);
  }

  /** One step of a run: the lookup at position `i` either fails or writes its key and the run goes on. */
  lemma RunLookupsStep(answer: Query -> Response, lookups: seq<(string, Query)>, i: nat,
                       results: map<string, seq<Row>>, columnNames: map<string, seq<string>>)
    requires i < |lookups|
    ensures var key, q := lookups[i].0, lookups[i].1;
            answer(q).Error? ==>
              && RunLookups(answer, lookups[i..], results, columnNames)
                 == LookupState(results, columnNames, Some(answer(q).message))
    ensures var key, q := lookups[i].0, lookups[i].1;
            answer(q).Rows? ==>
              && RunLookups(answer, lookups[i..], results, columnNames)
                 == RunLookups(answer, lookups[i + 1..], results[key := answer(q).rows],
                               columnNames[key := Names(answer(q).description)])
  {
    assert lookups[i..][0] == lookups[i];
    assert lookups[i..][1..] == lookups[i + 1..];
  }

  lemma QueriesStep(lookups: seq<(string, Query)>, i: nat)
    requires i < |lookups|
    ensures Queries(lookups[..i + 1]) == Queries(lookups[..i]) + [lookups[i].1]
  {
  }

  /**
   * One lookup, as `query_phone` and each pass of the `query_by_uid` loop run
   * it: execute, store the description's names, then the fetched rows.
   */
  method LookupInto(cursor: Cursor, key: string, q: Query, maps: ResultMaps) returns (error: Option<string>)
    modifies cursor, maps
    ensures cursor.executed == old(cursor.executed) + [q]
    ensures cursor.answer(q).Rows? ==>
              && error == None
              && maps.results == old(maps.results)[key := cursor.answer(q).rows]
              && maps.columnNames == old(maps.columnNames)[key := Names(cursor.answer(q).description)]
    ensures cursor.answer(q).Error? ==>
              && error == Some(cursor.answer(q).message)
              && maps.results == old(maps.results) && maps.columnNames == old(maps.columnNames)
  {
    error := cursor.Execute(q);
    if error.Some? {
      return;
    }
    maps.columnNames := maps.columnNames[key := Names(cursor.description)];
    var rows := cursor.FetchAll();
    maps.results := maps.results[key := rows];
  }

  /** `query_by_uid`: the five lookups of `UidLookups(uid)`, in order, stopping at a database error. */
  method QueryByUid(cursor: Cursor, uid: string, maps: ResultMaps) returns (error: Option<string>)
    modifies cursor, maps
    ensures var s := RunLookups(cursor.answer, UidLookups(uid), old(maps.results), old(maps.columnNames));
            maps.results == s.results && maps.columnNames == s.columnNames && error == s.failure
    ensures cursor.executed == old(cursor.executed) + Issued(cursor.answer, UidLookups(uid))
  {
    error := LookupEach(cursor, UidLookups(uid), maps);
  }

  /** The loop of `query_by_uid` over its list of (key, statement) pairs. */
  method LookupEach(cursor: Cursor, lookups: seq<(string, Query)>, maps: ResultMaps) returns (error: Option<string>)
    modifies cursor, maps
    ensures var s := RunLookups(cursor.answer, lookups, old(maps.results), old(maps.columnNames));
            maps.results == s.results && maps.columnNames == s.columnNames && error == s.failure
    ensures cursor.executed == old(cursor.executed) + Issued(cursor.answer, lookups)
  {
    ghost var final := RunLookups(cursor.answer, lookups, maps.results, maps.columnNames);
    var i := 0;
    while i < |lookups|
      invariant 0 <= i <= |lookups|
      invariant RunLookups(cursor.answer, lookups[i..], maps.results, maps.columnNames) == final
      invariant i <= FirstFailure(cursor.answer, lookups)
      invariant cursor.executed == old(cursor.executed) + Queries(lookups[..i])
    {
      var key, q := lookups[i].0, lookups[i].1;
      RunLookupsStep(cursor.answer, lookups, i, maps.results, maps.columnNames);
      QueriesStep(lookups, i);
      error := LookupInto(cursor, key, q, maps);
      if error.Some? {
        assert FirstFailure(cursor.answer, lookups) == i;
        return;
      }
      i := i + 1;
    }
    assert lookups[..i] == lookups;
    error := None;
  }

  /**
   * What `query_by_uid` promises on its own: it writes the five keys, in
   * order, until a statement fails; each written key holds that statement's
   * rows and column names; every other key is left as it was.
   */
  lemma UidLookupEffect(answer: Query -> Response, uid: string,
                        results: map<string, seq<Row>>, columnNames: map<string, seq<string>>)
    ensures var lookups := UidLookups(uid);
            var s := RunLookups(answer, lookups, results, columnNames);
            var n := FirstFailure(answer, lookups);
            && (s.failure == None <==> n == 5)
            && s.results.Keys == results.Keys + Keys(lookups[..n])
            && s.columnNames.Keys == columnNames.Keys + Keys(lookups[..n])
            && (forall i :: 0 <= i < n ==>
                  && lookups[i].0 in s.results && s.results[lookups[i].0] == answer(lookups[i].1).rows
                  && lookups[i].0 in s.columnNames && s.columnNames[lookups[i].0] == Names(answer(lookups[i].1).description))
            && (forall k :: k !in Keys(lookups[..n]) ==>
                  EqualOnKey(results, s.results, k) && EqualOnKey(columnNames, s.columnNames, k))
  {
    var lookups := UidLookups(uid);
    RunLookupsOutcome(answer, lookups, results, columnNames);
    RunLookupsKeys(answer, lookups, results, columnNames);
    RunLookupsFrame(answer, lookups, results, columnNames);
    RunLookupsWrites(answer, lookups, results, columnNames);
  }

  /** The keys `query_by_uid` writes under: the four user tables and "fbphone". */
  lemma UidLookupKeyNames(uid: string)
    ensures Keys(UidLookups(uid)) == {"profiles", "posts", "comments", "reactions", "fbphone"}
  {
    var l := UidLookups(uid);
    assert Keys(l[4..]) == {"fbphone"} by {
      assert l[4..][1..] == [];
    }
    assert Keys(l[3..]) == {"reactions"} + Keys(l[4..]) by {
      assert l[3..][1..] == l[4..];
    }
    assert Keys(l[2..]) == {"comments"} + Keys(l[3..]) by {
      assert l[2..][1..] == l[3..];
    }
    assert Keys(l[1..]) == {"posts"} + Keys(l[2..]) by {
      assert l[1..][1..] == l[2..];
    }
  }

  /** A uid lookup never writes outside the five table keys, whatever fails. */
  lemma UidLookupKeys(answer: Query -> Response, uid: string)
    ensures var s := RunLookups(answer, UidLookups(uid), map[], map[]);
            && s.results.Keys <= {"profiles", "posts", "comments", "reactions", "fbphone"}
            && s.columnNames.Keys == s.results.Keys
            && (s.failure == None ==> s.results.Keys == {"profiles", "posts", "comments", "reactions", "fbphone"})
  {
    var lookups := UidLookups(uid);
    var n := FirstFailure(answer, lookups);
    RunLookupsOutcome(answer, lookups, map[], map[]);
    RunLookupsKeys(answer, lookups, map[], map[]);
    UidLookupKeyNames(uid);
    KeysOfPrefixSubset(lookups, n);
    assert lookups[..|lookups|] == lookups;
  }
}
