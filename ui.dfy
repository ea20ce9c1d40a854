/** The argument normalisation the web and tool handlers apply before calling the engine. */
module Ui {
  import opened Basics
  import opened Text
  import opened MemoryEngine

  // ---------------------------------------------------------------------------
  // `_split_tags`
  // ---------------------------------------------------------------------------

  /** A missing or empty tags field means "no tags given"; any other text is split on ","
      into its stripped non-empty pieces, in order and with repetition kept. */
  function SplitTags(text: Option<string>): (r: Option<seq<string>>)
    ensures r.None? <==> text.None? || text.value == ""
    ensures r.Some? ==> forall i :: 0 <= i < |r.value| ==> r.value[i] != "" && IsTrimmed(r.value[i]) && ',' !in r.value[i]
  {
    if text.None? || text.value == "" then None
    else
      var pieces := Split(text.value, ',');
      CleanedCommaFree(pieces);
      Some(Cleaned(pieces))
  }

  /** On any non-empty text the handler's splitting and the engine's parsing agree. */
  lemma SplitAgreesWithParse(s: string)
    requires s != ""
    ensures SplitTags(Some(s)) == Some(ParseTags(Some(s)))
  {
  }

  /** Text made only of commas and white space is an explicit empty tag list, not "none". */
  lemma SplitBlank(s: string)
    requires s != ""
    requires forall i :: 0 <= i < |s| ==> s[i] == ',' || IsSpace(s[i])
    ensures SplitTags(Some(s)) == Some([])
  {
    SplitOfBlank(s, ',');
    CleanedBlank(Split(s, ','));
  }

  /** Splitting does not de-duplicate: a tag written twice is returned twice. */
  lemma SplitKeepsRepeats(t: string)
    requires t != "" && IsTrimmed(t) && ',' !in t
    ensures SplitTags(Some(t + "," + t)) == Some([t, t])
  {
    var xs := [t, t];
    assert forall i :: 0 <= i < |xs| ==> xs[i] == t;
    SplitJoined(xs);
    JoinPair(t, t, ",");
  }

  /** Clean, comma-free tags written out with "," come back unchanged. */
  lemma SplitJoined(xs: seq<string>)
    requires xs != []
    requires forall i :: 0 <= i < |xs| ==> xs[i] != "" && IsTrimmed(xs[i]) && ',' !in xs[i]
    ensures SplitTags(Some(Join(xs, ","))) == Some(xs)
  {
    ParseJoined(xs);
  }

  // ---------------------------------------------------------------------------
  // Argument mappings
  // ---------------------------------------------------------------------------

  /** Python's `x or None` on an optional string: the empty string counts as missing. */
  function OrNone(s: Option<string>): (r: Option<string>)
    ensures r.None? <==> s.None? || s.value == ""
    ensures r.Some? ==> r == s
  {
    if s.None? || s.value == "" then None else s
  }

  /** The type selector: "auto" asks the engine to resolve the type. */
  function TypeChoice(choice: string): (r: Option<string>)
    ensures r.None? <==> choice == "auto"
    ensures r.Some? ==> r.value == choice
  {
    if choice == "auto" then None else Some(choice)
  }

  /** The fields of the "add memory" form. */
  datatype AddForm = AddForm(
    text: string,
    typeChoice: string,
    tagsText: Option<string>,
    importance: real,
    useAi: bool,
    userId: Option<string>,
    agentId: Option<string>,
    conversationId: Option<string>,
    summary: Option<string>)

  /** The call `add_memory_handler` makes to `create_memory`. */
  function AddRequest(f: AddForm): (req: CreateRequest)
    ensures req.text == f.text && req.source == "ui"
    ensures req.memType.None? <==> f.typeChoice == "auto"
    ensures req.importance == Some(f.importance) && req.useAi == Some(f.useAi)
    ensures req.userId != Some("") && req.agentId != Some("")
    ensures req.conversationId != Some("") && req.summary != Some("")
    ensures req.clusterId.None? && req.extra.None?
    ensures req.memType == TypeChoice(f.typeChoice) && req.tags == SplitTags(f.tagsText)
    ensures req.userId == OrNone(f.userId) && req.agentId == OrNone(f.agentId)
    ensures req.conversationId == OrNone(f.conversationId) && req.summary == OrNone(f.summary)
  {
    CreateRequest(f.text, TypeChoice(f.typeChoice), SplitTags(f.tagsText), Some(f.importance),
                  OrNone(f.userId), OrNone(f.agentId), "ui", OrNone(f.conversationId),
                  None, None, OrNone(f.summary), Some(f.useAi))
  }

  /** Through the form the classifier is consulted exactly when the checkbox is ticked and the
      type is "auto", the tags field is empty or the summary field is empty; the form's own
      setting overrides the configured default and importance is always given. */
  lemma AddConsultsClassifier(f: AddForm, aiDefault: bool)
    ensures ConsultsClassifier(AddRequest(f), aiDefault) <==>
      f.useAi && (f.typeChoice == "auto" || f.tagsText.None? || f.tagsText == Some("") ||
                  f.summary.None? || f.summary == Some(""))
  {
  }

  /** A chosen type other than "auto" is stored as given when it is not empty. */
  lemma AddExplicitType(f: AddForm, guess: Guess)
    requires f.typeChoice != "auto" && f.typeChoice != ""
    ensures Resolve(AddRequest(f), guess).memType == f.typeChoice
  {
  }

  /** A tags field holding only commas overrides the classifier's tags and stores no tags. */
  lemma AddBlankTagsStoreNone(f: AddForm, guess: Guess)
    requires f.tagsText.Some? && f.tagsText.value != ""
    requires forall i :: 0 <= i < |f.tagsText.value| ==> f.tagsText.value[i] == ','
    ensures Resolve(AddRequest(f), guess).tags == Some([])
    ensures NormalizeTags(Resolve(AddRequest(f), guess).tags).None?
  {
    SplitBlank(f.tagsText.value);
  }

  /** `search_handler`'s type filter: an empty filter becomes "no filter". */
  function TypeFilter(typeFilter: string): (r: Option<string>)
    ensures r.None? <==> typeFilter == ""
    ensures r.Some? ==> r.value == typeFilter
  {
    OrNone(Some(typeFilter))
  }

  /** An empty filter selects every type; any other filter adds exactly the test for that
      type to what the search would match without one. */
  lemma SearchTypeFilter(row: Row, typeFilter: string, tags: Option<seq<string>>, since: Option<int>, until: Option<int>)
    ensures Matches(row, TypeFilter(typeFilter), tags, since, until) <==>
      Matches(row, None, tags, since, until) && (typeFilter == "" || row.memType == typeFilter)
  {
  }

  /** The reply of `delete_handler`. */
  datatype DeleteReply = DeleteReply(deletedId: nat)

  // ---------------------------------------------------------------------------
  // Handlers
  // ---------------------------------------------------------------------------

  /** `add_memory_handler`. */
  method AddMemoryHandler<V>(store: Store<V>, f: AddForm, aiDefault: bool, classify: string -> Classified,
                             embed: string -> Result<V, string>, ts: int, uuid: string)
    returns (r: Result<Memory, Error>)
    requires store.Valid()
    modifies store
    ensures store.Valid() && store.clusters == old(store.clusters)
    ensures var plan := PlanCreate(old(store.Snapshot()), store.clusters, AddRequest(f), aiDefault, classify, embed, ts, uuid);
      && (plan.Ok? ==> r == Ok(ToMemory(plan.value.row, None)) && store.Snapshot() == Insert(old(store.Snapshot()), plan.value))
      && (plan.Err? ==> r == Err(plan.error) && store.Snapshot() == old(store.Snapshot()))
  {
    r := store.Create(AddRequest(f), aiDefault, classify, embed, ts, uuid);
  }

  /** `search_handler`. */
  method SearchHandler<V>(store: Store<V>, query: string, topK: nat, typeFilter: string, tagsText: Option<string>,
                          embed: string -> Result<V, string>, dist: nat -> int, matches: seq<nat>)
    returns (r: Result<seq<Memory>, Error>)
    requires store.Valid()
    requires IsNearest(matches, store.vectors.Keys, dist, topK)
    ensures embed(query).Err? ==> r == Err(EmbeddingFailed(embed(query).error))
    ensures embed(query).Ok? ==>
      r == Ok(Hits(store.memories, matches, dist, Conditions(TypeFilter(typeFilter), SplitTags(tagsText), None, None)))
    ensures r.Ok? ==> |r.value| <= topK && NearestFirst(r.value)
  {
    r := store.Search(query, topK, TypeFilter(typeFilter), SplitTags(tagsText), None, None, embed, dist, matches);
  }

  /** `delete_handler`: the reply names the id whether or not a row had it. */
  method DeleteHandler<V>(store: Store<V>, id: nat, ts: int) returns (reply: DeleteReply)
    requires store.Valid()
    modifies store
    ensures store.Valid() && store.clusters == old(store.clusters)
    ensures store.Snapshot() == SoftDeleted(old(store.Snapshot()), id, ts)
    ensures reply.deletedId == id
  {
    store.Delete(id, ts);
    reply := DeleteReply(id);
  }
}
