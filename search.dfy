/**
 * The search view (`index`): validate the stripped form fields, then run the
 * phone lookup or the uid lookups with the summary and the reaction
 * statistics, and render whatever was gathered. A database error is caught:
 * the rows already written stay on the page.
 */
module Search {
  import opened Wrappers
  import opened Text
  import opened Validation
  import opened Store
  import opened Lookup
  import opened Activity
  import opened Reactions
  import opened Web

  /** The values `index.html` is rendered with, and the messages flashed on the way. */
  datatype Page = Page(results: map<string, seq<Row>>,
                       colnames: map<string, seq<string>>,
                       uid: string,
                       phone: string,
                       profileSummary: Option<map<string, nat>>,
                       reactionStats: seq<ReactionStat>,
                       flashes: seq<Notice>)

  /** The response: the rendered page, or an internal error for an exception the view does not catch. */
  datatype Reply = ShowIndex(page: Page) | ServerError

  /** A message the view flashes: a validation warning, or the database-failure notice. */
  datatype Notice = InputWarning(verdict: Verdict) | FetchFailed

  /** The text and category `flash` is called with for a notice. */
  function NoticeFlash(n: Notice): (f: Flash)
    requires n.InputWarning? ==> n.verdict != Accepted
    ensures n.InputWarning? ==> f == Flash(Message(n.verdict).value, "warning")
    ensures n.FetchFailed? ==> f.category == "danger"
  {
    match n
    case InputWarning(v) => Flash(Message(v).value, "warning")
    case FetchFailed => Flash("An error occurred while fetching data. Please try again later.", "danger")
  }

  /** The uid field as the view reads it: `request.form.get("uid", "").strip()`. */
  function SubmittedUid(req: Request): string
  {
    Strip(FormGet(req.form, "uid"))
  }

  /** The phone field as the view reads it. */
  function SubmittedPhone(req: Request): string
  {
    Strip(FormGet(req.form, "phone"))
  }

  /** The request reaches the database: a submitted search that passes validation. */
  predicate OpensConnection(req: Request)
  {
    req.verb == Post && ValidateInputs(SubmittedUid(req), SubmittedPhone(req)) == Accepted
  }

  /** The page of a phone search. */
  function PhoneReply(answer: Query -> Response, uid: string, phone: string): Reply
  {
    match answer(PhoneQuery(phone))
    case Rows(d, rows) => ShowIndex(Page(map["fbphone" := rows], map["fbphone" := Names(d)], uid, phone, None, [], []))
    case Error(_) => ShowIndex(Page(map[], map[], uid, phone, None, [], [FetchFailed]))
  }

  /** The reply of a uid search: lookups, then the summary, then the statistics. */
  function UidReply(answer: Query -> Response, uid: string, phone: string): Reply
  {
    var s := RunLookups(answer, UidLookups(uid), map[], map[]);
    if s.failure.Some? then
      ShowIndex(Page(s.results, s.columnNames, uid, phone, None, [], [FetchFailed]))
    else
      var summary := Some(SummarizeProfileActivity(s.results));
      match answer(ReactionCounts(uid))
      case Error(_) => ShowIndex(Page(s.results, s.columnNames, uid, phone, summary, [], [FetchFailed]))
      case Rows(_, rows) =>
        match ToRecords(rows)
        case None => ServerError
        case Some(stats) => ShowIndex(Page(s.results, s.columnNames, uid, phone, summary, stats, []))
  }

  /** The reply to a submitted search with stripped fields `uid` and `phone`. */
  function SearchReply(store: DataStore, uid: string, phone: string): Reply
  {
    if ValidateInputs(uid, phone) != Accepted then
      ShowIndex(Page(map[], map[], uid, phone, None, [], [InputWarning(ValidateInputs(uid, phone))]))
    else if !store.reachable then
      ShowIndex(Page(map[], map[], uid, phone, None, [], [FetchFailed]))
    else if phone != "" then
      PhoneReply(store.answer, uid, phone)
    else
      UidReply(store.answer, uid, phone)
  }

  /** The statements a submitted search sends to the database, in order. */
  function SearchQueries(store: DataStore, uid: string, phone: string): seq<Query>
  {
    if ValidateInputs(uid, phone) != Accepted || !store.reachable then []
    else if phone != "" then [PhoneQuery(phone)]
    else
      var lookups := Issued(store.answer, UidLookups(uid));
      if RunLookups(store.answer, UidLookups(uid), map[], map[]).failure.None? then lookups + [ReactionCounts(uid)]
      else lookups
  }

  /** The reply `index` gives: an empty search page for a plain visit. */
  function IndexReply(store: DataStore, req: Request): Reply
  {
    if req.verb == Get then ShowIndex(Page(map[], map[], "", "", None, [], []))
    else SearchReply(store, SubmittedUid(req), SubmittedPhone(req))
  }

  /** The statements `index` sends to the database, in order. */
  function IndexQueries(store: DataStore, req: Request): seq<Query>
  {
    if req.verb == Get then [] else SearchQueries(store, SubmittedUid(req), SubmittedPhone(req))
  }

  /**
   * `index`. Returns the reply, the statements sent, and whether a database
   * connection was requested.
   */
  method Index(store: DataStore, req: Request) returns (reply: Reply, issued: seq<Query>, connected: bool)
    ensures reply == IndexReply(store, req)
    ensures issued == IndexQueries(store, req)
    ensures connected == OpensConnection(req)
  {
    var maps := new ResultMaps();
    var uid, phone := "", "";
    issued, connected := [], false;

    if req.verb == Post {
      uid := Strip(FormGet(req.form, "uid"));
      phone := Strip(FormGet(req.form, "phone"));

      var verdict := ValidateInputs(uid, phone);
      if verdict != Accepted {
        var flashes := [InputWarning(verdict)];
        reply := ShowIndex(Page(maps.results, maps.columnNames, uid, phone, None, [], flashes));
        return;
      }

      connected := true;
      if !store.reachable {
        reply := ShowIndex(Page(maps.results, maps.columnNames, uid, phone, None, [], [FetchFailed]));
        return;
      }
      var cursor := new Cursor(store.answer);
      if phone != "" {
        var failure := QueryPhone(cursor, phone, maps);
        var flashes := if failure.Some? then [FetchFailed] else [];
        reply := ShowIndex(Page(maps.results, maps.columnNames, uid, phone, None, [], flashes));
      } else {
        // the source's `elif uid:`; an accepted search with no phone has a uid
        AcceptedHasOneField(uid, phone);
        reply := SearchByUid(cursor, uid, phone, maps);
      }
      issued := cursor.executed;
      return;
    }

    reply := ShowIndex(Page(maps.results, maps.columnNames, uid, phone, None, [], []));
  }

  /**
   * The uid branch of `index`, from the lookups to the rendered page; a
   * database error anywhere ends it with what was gathered so far.
   */
  method SearchByUid(cursor: Cursor, uid: string, phone: string, maps: ResultMaps) returns (reply: Reply)
    requires maps.results == map[] && maps.columnNames == map[]
    modifies cursor, maps
    ensures reply == UidReply(cursor.answer, uid, phone)
    ensures cursor.executed == old(cursor.executed) + Issued(cursor.answer, UidLookups(uid))
              + (if RunLookups(cursor.answer, UidLookups(uid), map[], map[]).failure.None? then [ReactionCounts(uid)] else [])
  {
    var failure := QueryByUid(cursor, uid, maps);
    if failure.Some? {
      reply := ShowIndex(Page(maps.results, maps.columnNames, uid, phone, None, [], [FetchFailed]));
      return;
    }
    var profileSummary := Some(SummarizeProfileActivity(maps.results));
    var stats := FetchReactionStats(cursor, uid);
    match stats
    case Success(records) =>
      reply := ShowIndex(Page(maps.results, maps.columnNames, uid, phone, profileSummary, records, []));
    case Failure(DatabaseError(_)) =>
      reply := ShowIndex(Page(maps.results, maps.columnNames, uid, phone, profileSummary, [], [FetchFailed]));
    case Failure(UnpackError) =>
      reply := ServerError;
  }

  // ---------------------------------------------------------------------------
  // What a search does, by mode (`uid` and `phone` are the stripped fields)

  /** A search that fails validation opens no connection and renders only the warning. */
  lemma ValidationFailureTouchesNothing(store: DataStore, uid: string, phone: string)
    requires ValidateInputs(uid, phone) != Accepted
    ensures SearchQueries(store, uid, phone) == []
    ensures var reply := SearchReply(store, uid, phone);
            && reply.ShowIndex?
            && reply.page.results == map[] && reply.page.colnames == map[]
            && reply.page.profileSummary == None && reply.page.reactionStats == []
            && reply.page.flashes == [InputWarning(ValidateInputs(uid, phone))]
  {
  }

  /**
   * A phone search sends only the phone lookup, shows at most the "fbphone"
   * table, and never computes a summary or reaction statistics.
   */
  lemma PhoneSearch(store: DataStore, uid: string, phone: string)
    requires ValidateInputs(uid, phone) == Accepted && phone != ""
    ensures SearchQueries(store, uid, phone) == if store.reachable then [PhoneQuery(phone)] else []
    ensures var reply := SearchReply(store, uid, phone);
            && reply.ShowIndex?
            && reply.page.results.Keys <= {"fbphone"}
            && reply.page.colnames.Keys == reply.page.results.Keys
            && reply.page.profileSummary == None && reply.page.reactionStats == []
            && (store.reachable && store.answer(PhoneQuery(phone)).Rows? ==>
                  && reply.page.results["fbphone"] == store.answer(PhoneQuery(phone)).rows
                  && reply.page.flashes == [])
            && (!store.reachable || store.answer(PhoneQuery(phone)).Error? ==>
                  reply.page.flashes == [FetchFailed])
  {
  }

  /**
   * A uid search sends the uid lookups in order up to the first failure, and
   * the grouped reaction query only when all five succeeded; it never runs
   * the phone-number lookup.
   */
  lemma UidSearchQueries(store: DataStore, uid: string, phone: string)
    requires ValidateInputs(uid, phone) == Accepted && phone == "" && store.reachable
    ensures var lookups := UidLookups(uid);
            var n := FirstFailure(store.answer, lookups);
            && uid != ""
            && SearchQueries(store, uid, phone) == Queries(lookups[..if n < 5 then n + 1 else 5])
                                                  + (if n == 5 then [ReactionCounts(uid)] else [])
            && forall q :: q in SearchQueries(store, uid, phone) ==> !(q.SelectWhere? && q.column == "eightdigitnumbers")
  {
    var lookups := UidLookups(uid);
    RunLookupsOutcome(store.answer, lookups, map[], map[]);
    var n := FirstFailure(store.answer, lookups);
    var m := if n < 5 then n + 1 else 5;
    forall q | q in Queries(lookups[..m]) ensures !(q.SelectWhere? && q.column == "eightdigitnumbers") {
      var i :| 0 <= i < m && Queries(lookups[..m])[i] == q;
      assert q == lookups[i].1;
    }
  }

  /**
   * What a uid search renders, on every exit path. Without a connection the
   * page is empty apart from the database notice. Otherwise the maps hold
   * whatever the lookups wrote before any failure, the summary is present
   * exactly when all five lookups succeeded, and statistics appear only when
   * the grouped query also succeeded.
   */
  lemma UidSearchPage(store: DataStore, uid: string, phone: string)
    requires ValidateInputs(uid, phone) == Accepted && phone == ""
    ensures !store.reachable ==>
              SearchReply(store, uid, phone) == ShowIndex(Page(map[], map[], uid, phone, None, [], [FetchFailed]))
    ensures var s := RunLookups(store.answer, UidLookups(uid), map[], map[]);
            var reply := SearchReply(store, uid, phone);
            store.reachable ==>
            && (reply.ServerError? <==>
                  s.failure.None? && store.answer(ReactionCounts(uid)).Rows?
                  && ToRecords(store.answer(ReactionCounts(uid)).rows).None?)
            && (reply.ShowIndex? ==>
                  && reply.page.results == s.results
                  && reply.page.colnames == s.columnNames
                  && reply.page.results.Keys <= {"profiles", "posts", "comments", "reactions", "fbphone"}
                  && (reply.page.profileSummary.Some? <==> s.failure.None?)
                  && (reply.page.profileSummary.Some? ==>
                        reply.page.profileSummary.value == SummarizeProfileActivity(s.results))
                  && (reply.page.reactionStats != [] ==>
                        s.failure.None? && store.answer(ReactionCounts(uid)).Rows?)
                  && (reply.page.flashes == [FetchFailed] <==>
                        s.failure.Some? || store.answer(ReactionCounts(uid)).Error?)
                  && (reply.page.flashes != [FetchFailed] ==> reply.page.flashes == []))
  {
    UidLookupKeys(store.answer, uid);
  }

  /**
   * When the store answers the grouped query as its SQL means, a completed
   * uid search shows the aggregate of the uid's reaction types: each type of
   * its reaction rows once, with that type's number of rows, in
   * non-increasing order of count, the counts adding up to the summary's
   * reaction count.
   */
  lemma UidSearchStats(store: DataStore, uid: string, phone: string)
    requires ValidateInputs(uid, phone) == Accepted && phone == "" && store.reachable
    requires StatsAgree(store.answer, uid)
    requires RunLookups(store.answer, UidLookups(uid), map[], map[]).failure.None?
    requires store.answer(ReactionCounts(uid)).Rows?
    ensures var reply := SearchReply(store, uid, phone);
            var reactions := store.answer(SelectWhere("reactions", "reac_user_id", uid));
            && reactions.Rows?
            && reply.ShowIndex?
            && reply.page.profileSummary.Some?
            && var k := ColumnIndex(Names(reactions.description), "reac_type");
            && k.Some?
            && (forall i :: 0 <= i < |reactions.rows| ==> k.value < |reactions.rows[i]|)
            && var stats := reply.page.reactionStats;
               && IsReactionAggregate(ColumnValues(reactions.rows, k.value), stats)
               && (forall i :: 0 <= i < |stats| ==> stats[i].count.Int? && stats[i].count.i >= 1)
               && (forall i, j :: 0 <= i < j < |stats| ==> stats[i].count.i >= stats[j].count.i)
               && TotalCount(stats) == reply.page.profileSummary.value["reaction_count"]
  {
    SummaryCountsLookedUpRows(store.answer, uid);
    StatsMeaning(store.answer, uid);
  }
}
