/** The activity summariser (`summarize_profile_activity`). */
module Activity {
  import opened Store
  import opened Lookup

  /** `len(results.get(key, []))`. */
  function RowCount(results: map<string, seq<Row>>, key: string): nat
  {
    if key in results then |results[key]| else 0
  }

  /**
   * The three counts of a profile's activity. Total: a missing table counts
   * as no rows.
   */
  function SummarizeProfileActivity(results: map<string, seq<Row>>): (summary: map<string, nat>)
    ensures summary.Keys == {"post_count", "comment_count", "reaction_count"}
    ensures summary["post_count"] == (if "posts" in results then |results["posts"]| else 0)
    ensures summary["comment_count"] == (if "comments" in results then |results["comments"]| else 0)
    ensures summary["reaction_count"] == (if "reactions" in results then |results["reactions"]| else 0)
  {
    map["post_count" := RowCount(results, "posts"),
        "comment_count" := RowCount(results, "comments"),
        "reaction_count" := RowCount(results, "reactions")]
  }

  /**
   * After a complete uid lookup into empty maps, the summary counts exactly
   * the rows the store returned for the posts, comments and reactions lookups.
   */
  lemma SummaryCountsLookedUpRows(answer: Query -> Response, uid: string)
    requires RunLookups(answer, UidLookups(uid), map[], map[]).failure.None?
    ensures var summary := SummarizeProfileActivity(RunLookups(answer, UidLookups(uid), map[], map[]).results);
            && answer(SelectWhere("posts", "post_user_id", uid)).Rows?
            && answer(SelectWhere("comments", "com_user_id", uid)).Rows?
            && answer(SelectWhere("reactions", "reac_user_id", uid)).Rows?
            && summary["post_count"] == |answer(SelectWhere("posts", "post_user_id", uid)).rows|
            && summary["comment_count"] == |answer(SelectWhere("comments", "com_user_id", uid)).rows|
            && summary["reaction_count"] == |answer(SelectWhere("reactions", "reac_user_id", uid)).rows|
  {
    var lookups := UidLookups(uid);
    UidLookupEffect(answer, uid, map[], map[]);
    assert lookups[1].0 == "posts" && lookups[2].0 == "comments" && lookups[3].0 == "reactions";
  }
}
