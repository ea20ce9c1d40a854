/** The memory store of mind/memory_engine.py: tag normalisation, the value precedence of
    `create_memory`, and a `Store` class over the `memories` table, the `vec_memories`
    index and the AUTOINCREMENT counter. Classification, embedding, the clock, uuid
    generation and the nearest-neighbour search are parameters. */
module MemoryEngine {
  import opened Basics
  import opened Seqs
  import opened Text
  import Db

  // ---------------------------------------------------------------------------
  // Tags: `_normalize_tags` and `_parse_tags`
  // ---------------------------------------------------------------------------

  /** The stripped entries of `tags` that are not empty after stripping, in order. */
  function Cleaned(tags: seq<string>): (r: seq<string>)
    ensures |r| <= |tags|
    ensures forall i :: 0 <= i < |r| ==> r[i] != "" && IsTrimmed(r[i])
  {
    if tags == [] then []
    else
      var t := Trim(tags[0]);
      var rest := Cleaned(tags[1..]);
      if t != "" then [t] + rest else rest
  }

  /** Cleaning the list `[t] + rest`. */
  lemma CleanedCons(tags: seq<string>)
    requires tags != []
    ensures Cleaned(tags) == if Trim(tags[0]) != "" then [Trim(tags[0])] + Cleaned(tags[1..]) else Cleaned(tags[1..])
  {
  }

  /** Nothing survives cleaning exactly when every entry is blank. */
  lemma {:induction false} CleanedBlank(tags: seq<string>)
    ensures Cleaned(tags) == [] <==> forall i :: 0 <= i < |tags| ==> AllSpace(tags[i])
  {
    if tags != [] {
      CleanedCons(tags);
      CleanedBlank(tags[1..]);
      assert forall i :: 1 <= i < |tags| ==> tags[i] == tags[1..][i - 1];
    }
  }

  /** Every entry that is not blank contributes its stripped form. */
  lemma {:induction false} CleanedKeeps(tags: seq<string>)
    ensures forall i :: 0 <= i < |tags| && !AllSpace(tags[i]) ==> Trim(tags[i]) in Cleaned(tags)
  {
    if tags != [] {
      CleanedKeeps(tags[1..]);
      CleanedConsKeeps(tags);
    }
  }

  lemma CleanedConsKeeps(tags: seq<string>)
    requires tags != []
    requires forall i :: 0 <= i < |tags[1..]| && !AllSpace(tags[1..][i]) ==> Trim(tags[1..][i]) in Cleaned(tags[1..])
    ensures forall i :: 0 <= i < |tags| && !AllSpace(tags[i]) ==> Trim(tags[i]) in Cleaned(tags)
  {
    CleanedCons(tags);
    forall i | 0 <= i < |tags| && !AllSpace(tags[i]) ensures Trim(tags[i]) in Cleaned(tags) {
      if i > 0 {
        assert tags[i] == tags[1..][i - 1];
      }
    }
  }

  /** Every entry of `Cleaned(tags)` is the stripped form of some entry. */
  lemma {:induction false} CleanedFrom(tags: seq<string>)
    ensures forall c :: c in Cleaned(tags) ==> exists j :: 0 <= j < |tags| && c == Trim(tags[j])
  {
    if tags != [] {
      CleanedFrom(tags[1..]);
      CleanedConsFrom(tags);
    }
  }

  lemma CleanedConsFrom(tags: seq<string>)
    requires tags != []
    requires forall c :: c in Cleaned(tags[1..]) ==> exists j :: 0 <= j < |tags[1..]| && c == Trim(tags[1..][j])
    ensures forall c :: c in Cleaned(tags) ==> exists j :: 0 <= j < |tags| && c == Trim(tags[j])
  {
    CleanedCons(tags);
    forall c | c in Cleaned(tags) ensures exists j :: 0 <= j < |tags| && c == Trim(tags[j]) {
      if c != Trim(tags[0]) {
        assert c in Cleaned(tags[1..]);
        var j :| 0 <= j < |tags[1..]| && c == Trim(tags[1..][j]);
        assert tags[1..][j] == tags[j + 1];
      }
    }
  }

  /** Stripping never introduces a comma. */
  lemma {:induction false} CleanedCommaFree(tags: seq<string>)
    requires forall i :: 0 <= i < |tags| ==> ',' !in tags[i]
    ensures forall i :: 0 <= i < |Cleaned(tags)| ==> ',' !in Cleaned(tags)[i]
  {
    if tags != [] {
      var rest := tags[1..];
      assert forall i :: 0 <= i < |rest| ==> ',' !in rest[i] by {
        forall i | 0 <= i < |rest| ensures ',' !in rest[i] { assert rest[i] == tags[i + 1]; }
      }
      CleanedCommaFree(rest);
      CleanedConsCommaFree(tags);
    }
  }

  lemma CleanedConsCommaFree(tags: seq<string>)
    requires tags != [] && ',' !in tags[0]
    requires forall i :: 0 <= i < |Cleaned(tags[1..])| ==> ',' !in Cleaned(tags[1..])[i]
    ensures forall i :: 0 <= i < |Cleaned(tags)| ==> ',' !in Cleaned(tags)[i]
  {
    CleanedCons(tags);
    TrimKeepsOut(tags[0], ',');
  }

  lemma TrimKeepsOut(s: string, c: char)
    requires c !in s
    ensures c !in Trim(s)
  {
    if c in Trim(s) {
      TrimChars(s, c);
    }
  }

  /** A list that is already stripped and has no empty entries is its own cleaning. */
  lemma {:induction false} CleanedOfClean(tags: seq<string>)
    requires forall i :: 0 <= i < |tags| ==> tags[i] != "" && IsTrimmed(tags[i])
    ensures Cleaned(tags) == tags
  {
    if tags != [] {
      TrimOfTrimmed(tags[0]);
      CleanedCons(tags);
      assert forall i :: 0 <= i < |tags[1..]| ==> tags[1..][i] == tags[i + 1];
      CleanedOfClean(tags[1..]);
    }
  }

  /** `_normalize_tags`: `None` stays `None`; a list with no non-blank entry is `None`;
      otherwise the stripped non-blank entries, first occurrences only (exact, case-sensitive
      comparison), joined with ",". */
  function NormalizeTags(tags: Option<seq<string>>): (r: Option<string>)
    ensures tags.None? ==> r.None?
    ensures tags.Some? ==> (r.None? <==> forall i :: 0 <= i < |tags.value| ==> AllSpace(tags.value[i]))
    ensures r.Some? ==> r.value != ""
  {
    match tags
    case None => None
    case Some(ts) =>
      var cleaned := Cleaned(ts);
      CleanedBlank(ts);
      if cleaned == [] then None
      else
        var distinct := Dedup(cleaned);
        assert cleaned[0] in distinct;
        assert distinct != [] && distinct[0] != "";
        JoinNonEmpty(distinct, ",");
        Some(Join(distinct, ","))
  }

  /** `_parse_tags`: a missing or empty text has no tags; otherwise the stripped non-empty
      comma-separated pieces, in order and with any repetition kept. */
  function ParseTags(text: Option<string>): (r: seq<string>)
    ensures forall i :: 0 <= i < |r| ==> r[i] != "" && IsTrimmed(r[i]) && ',' !in r[i]
  {
    if text.None? || text.value == "" then []
    else
      var pieces := Split(text.value, ',');
      CleanedCommaFree(pieces);
      Cleaned(pieces)
  }

  /** Joining clean, comma-free tags with "," and parsing the text gives them back. */
  lemma ParseJoined(xs: seq<string>)
    requires xs != []
    requires forall i :: 0 <= i < |xs| ==> xs[i] != "" && IsTrimmed(xs[i]) && ',' !in xs[i]
    ensures ParseTags(Some(Join(xs, ","))) == xs
  {
    JoinNonEmpty(xs, ",");
    SplitJoin(xs, ',');
    CleanedOfClean(xs);
  }

  /** The entries `_normalize_tags` keeps are clean, and comma-free when the input is. */
  lemma DistinctCleaned(tags: seq<string>)
    requires forall i :: 0 <= i < |tags| ==> ',' !in tags[i]
    ensures forall i :: 0 <= i < |Dedup(Cleaned(tags))| ==>
      Dedup(Cleaned(tags))[i] != "" && IsTrimmed(Dedup(Cleaned(tags))[i]) && ',' !in Dedup(Cleaned(tags))[i]
  {
    var cleaned := Cleaned(tags);
    CleanedCommaFree(tags);
    forall i | 0 <= i < |Dedup(cleaned)|
      ensures Dedup(cleaned)[i] != "" && IsTrimmed(Dedup(cleaned)[i]) && ',' !in Dedup(cleaned)[i]
    {
      var j :| 0 <= j < |cleaned| && cleaned[j] == Dedup(cleaned)[i];
    }
  }

  /** Reading back normalised tags gives the distinct stripped non-blank entries, provided
      no entry holds a comma (a comma inside a tag splits it in two). */
  lemma ParseNormalize(tags: seq<string>)
    requires forall i :: 0 <= i < |tags| ==> ',' !in tags[i]
    ensures ParseTags(NormalizeTags(Some(tags))) == Dedup(Cleaned(tags))
  {
    var cleaned := Cleaned(tags);
    if cleaned == [] {
      assert NormalizeTags(Some(tags)) == None;
    } else {
      var distinct := Dedup(cleaned);
      assert cleaned[0] in distinct;
      assert NormalizeTags(Some(tags)) == Some(Join(distinct, ","));
      DistinctCleaned(tags);
      ParseJoined(distinct);
    }
  }

  /** Normalising what was read back from normalised tags changes nothing. */
  lemma NormalizeIdempotent(tags: seq<string>)
    requires forall i :: 0 <= i < |tags| ==> ',' !in tags[i]
    ensures NormalizeTags(Some(ParseTags(NormalizeTags(Some(tags))))) == NormalizeTags(Some(tags))
  {
    ParseNormalize(tags);
    var distinct := Dedup(Cleaned(tags));
    assert forall i :: 0 <= i < |distinct| ==> distinct[i] != "" && IsTrimmed(distinct[i]);
    CleanedOfClean(distinct);
    DedupIdempotent(Cleaned(tags));
    if Cleaned(tags) != [] {
      assert Cleaned(tags)[0] in distinct;
      assert !AllSpace(distinct[0]);
    }
  }

  /** Absent and empty tag text both read as no tags. */
  lemma ParseNothing()
    ensures ParseTags(None) == [] && ParseTags(Some("")) == []
  {
  }

  lemma NormalizeSome(tags: seq<string>)
    requires Cleaned(tags) != []
    ensures NormalizeTags(Some(tags)) == Some(Join(Dedup(Cleaned(tags)), ","))
  {
  }

  lemma CleanedPair(a: string, b: string)
    requires !AllSpace(a) && !AllSpace(b)
    ensures Cleaned([a, b]) == [Trim(a), Trim(b)]
  {
    CleanedCons([a, b]);
    CleanedCons([b]);
    assert [a, b][1..] == [b] && [b][1..] == [];
  }

  lemma JoinPair(x: string, y: string, sep: string)
    ensures Join([x, y], sep) == x + sep + y
  {
    assert [x, y][1..] == [y];
  }

  /** Tags are compared exactly after stripping: two entries whose stripped forms differ
      in any way (letter case included, so "Work" and " work ") are both kept, in order. */
  lemma DistinctTagsKept(a: string, b: string)
    requires !AllSpace(a) && !AllSpace(b) && Trim(a) != Trim(b)
    ensures NormalizeTags(Some([a, b])) == Some(Trim(a) + "," + Trim(b))
  {
    CleanedPair(a, b);
    DedupOfDistinct([Trim(a), Trim(b)]);
    JoinPair(Trim(a), Trim(b), ",");
    NormalizeSome([a, b]);
  }

  /** The four entries "Work", " work ", "" and "Focus" are stored as "Work,work,Focus": the
      blank entry is dropped and the two spellings of "work" differ in case, so both stay. */
  lemma CaseSensitiveExample()
    ensures NormalizeTags(Some(["Work", " work ", "", "Focus"])) == Some("Work,work,Focus")
  {
    CleanedExample();
    KeptDistinct();
    KeptJoined();
    NormalizeOfDistinct(["Work", " work ", "", "Focus"], ["Work", "work", "Focus"]);
  }

  /** The three kept tags, joined. */
  lemma KeptJoined()
    ensures Join(["Work", "work", "Focus"], ",") == "Work,work,Focus"
  {
    JoinTriple("Work", "work", "Focus", ",");
  }

  /** When the cleaned entries are already distinct, they are stored joined as they are. */
  lemma NormalizeOfDistinct(tags: seq<string>, kept: seq<string>)
    requires Cleaned(tags) == kept && kept != [] && Distinct(kept)
    ensures NormalizeTags(Some(tags)) == Some(Join(kept, ","))
  {
    DedupOfDistinct(kept);
  }

  /** Letter case tells "Work" and "work" apart. */
  lemma KeptDistinct()
    ensures Distinct(["Work", "work", "Focus"])
  {
    var kept := ["Work", "work", "Focus"];
    assert kept[0][0] != kept[1][0] && kept[0][0] != kept[2][0] && kept[1][0] != kept[2][0];
  }

  /** Cleaning strips " work " and drops the empty entry. */
  lemma CleanedExample()
    ensures Cleaned(["Work", " work ", "", "Focus"]) == ["Work", "work", "Focus"]
  {
    var tags := ["Work", " work ", "", "Focus"];
    TrimOfTrimmed("Work");
    TrimSpacedWork();
    assert AllSpace("");
    TrimOfTrimmed("Focus");
    CleanedCons(tags);
    assert tags[1..] == [" work ", "", "Focus"];
    CleanedCons(tags[1..]);
    assert tags[1..][1..] == ["", "Focus"];
    CleanedCons(tags[1..][1..]);
    assert tags[1..][1..][1..] == ["Focus"];
    CleanedCons(["Focus"]);
    assert ["Focus"][1..] == [];
  }

  /** `" work ".strip()` is "work". */
  lemma TrimSpacedWork()
    ensures Trim(" work ") == "work"
  {
    var s := " work ";
    assert IsSpace(s[0]) && s[1..] == "work " && !IsSpace(s[1..][0]);
    assert TrimStart(s) == "work ";
    var u := "work ";
    assert IsSpace(u[|u| - 1]) && u[..|u| - 1] == "work";
    assert !IsSpace("work"[3]);
    assert TrimEnd(u) == "work";
  }

  lemma JoinTriple(x: string, y: string, z: string, sep: string)
    ensures Join([x, y, z], sep) == x + sep + y + sep + z
  {
    assert [x, y, z][1..] == [y, z];
    JoinPair(y, z, sep);
  }

  /** Entries that strip to the same text collapse into the first. */
  lemma RepeatedTagDropped(a: string, b: string)
    requires !AllSpace(a) && Trim(a) == Trim(b)
    ensures NormalizeTags(Some([a, b])) == Some(Trim(a))
  {
    assert Trim(b) != [];
    CleanedPair(a, b);
    assert [Trim(a), Trim(b)] == [Trim(a)] + [Trim(a)];
    DedupSnoc([Trim(a)], Trim(a));
    DedupOfDistinct([Trim(a)]);
    NormalizeSome([a, b]);
  }

  // ---------------------------------------------------------------------------
  // Rows and the dictionaries built from them (`_row_to_memory`)
  // ---------------------------------------------------------------------------

  /** The decoded `extra_json` object; its values are kept opaque. */
  type Extra = map<string, string>

  /** One row of the `memories` table. NOT NULL columns (uuid, text, created_at, updated_at)
      have non-optional types; `memType` is the `type` column. */
  datatype Row = Row(
    id: nat,
    uuid: string,
    userId: Option<string>,
    agentId: Option<string>,
    source: string,
    memType: string,
    text: string,
    summary: Option<string>,
    tags: Option<string>,
    importance: Option<real>,
    conversationId: Option<string>,
    clusterId: Option<int>,
    createdAt: int,
    updatedAt: int,
    lastAccessedAt: Option<int>,
    extra: Option<Extra>,
    deletedAt: Option<int>)

  /** The dictionary the engine returns: the row with its tags parsed, plus the distance
      when the row came out of a vector search. */
  datatype Memory = Memory(
    id: nat,
    uuid: string,
    userId: Option<string>,
    agentId: Option<string>,
    source: string,
    memType: string,
    text: string,
    summary: Option<string>,
    tags: seq<string>,
    importance: Option<real>,
    conversationId: Option<string>,
    clusterId: Option<int>,
    createdAt: int,
    updatedAt: int,
    lastAccessedAt: Option<int>,
    deletedAt: Option<int>,
    extra: Option<Extra>,
    distance: Option<int>)

  function ToMemory(row: Row, distance: Option<int>): (m: Memory)
    ensures m.id == row.id && m.uuid == row.uuid && m.text == row.text && m.deletedAt == row.deletedAt
    ensures m.tags == ParseTags(row.tags) && m.distance == distance
    ensures m.userId == row.userId && m.agentId == row.agentId && m.source == row.source
    ensures m.memType == row.memType && m.summary == row.summary && m.importance == row.importance
    ensures m.conversationId == row.conversationId && m.clusterId == row.clusterId
    ensures m.createdAt == row.createdAt && m.updatedAt == row.updatedAt
    ensures m.lastAccessedAt == row.lastAccessedAt && m.extra == row.extra
  {
    Memory(row.id, row.uuid, row.userId, row.agentId, row.source, row.memType, row.text,
           row.summary, ParseTags(row.tags), row.importance, row.conversationId, row.clusterId,
           row.createdAt, row.updatedAt, row.lastAccessedAt, row.deletedAt, row.extra, distance)
  }

  /** `extra_json` is written only for a non-empty object, so `{}` reads back as `None`. */
  function StoredExtra(extra: Option<Extra>): (r: Option<Extra>)
    ensures r.Some? <==> extra.Some? && extra.value != map[]
    ensures r.Some? ==> r == extra
  {
    if extra.Some? && extra.value != map[] then extra else None
  }

  // ---------------------------------------------------------------------------
  // Resolving the fields of a new memory (`create_memory`, before any write)
  // ---------------------------------------------------------------------------

  /** The keyword arguments of `create_memory`; `memType` is `type_`. */
  datatype CreateRequest = CreateRequest(
    text: string,
    memType: Option<string>,
    tags: Option<seq<string>>,
    importance: Option<real>,
    userId: Option<string>,
    agentId: Option<string>,
    source: string,
    conversationId: Option<string>,
    clusterId: Option<int>,
    extra: Option<Extra>,
    summary: Option<string>,
    useAi: Option<bool>)

  /** The keys the classifier may propose; a missing key is `None`. */
  datatype Guess = Guess(memType: Option<string>, tags: Option<seq<string>>, importance: Option<real>, summary: Option<string>)

  const NoGuess: Guess := Guess(None, None, None, None)

  /** What calling the classifier on a text does: a guess, an `LLMError` (missing key,
      reply that is not JSON), or any other failure (HTTP status, transport), which
      `create_memory` does not catch. */
  datatype Classified = Guessed(guess: Guess) | LlmError(message: string) | OtherFailure(message: string)

  datatype Error =
    | ClassifierFailed(message: string)
    | EmbeddingFailed(message: string)
    | UuidConflict
    | UnknownCluster(clusterId: int)

  /** `use_ai` when given, else the configured default. */
  function AiEnabled(req: CreateRequest, aiDefault: bool): (b: bool)
    ensures req.useAi.Some? ==> (b <==> req.useAi.value)
    ensures req.useAi.None? ==> (b <==> aiDefault)
  {
    req.useAi.GetOr(aiDefault)
  }

  predicate TypeUnset(memType: Option<string>) {
    memType.None? || memType.value == "auto"
  }

  predicate Unresolved(req: CreateRequest) {
    TypeUnset(req.memType) || req.tags.None? || req.importance.None? || req.summary.None?
  }

  predicate ConsultsClassifier(req: CreateRequest, aiDefault: bool) {
    AiEnabled(req, aiDefault) && Unresolved(req)
  }

  /** The type precedence: an explicit type other than "auto", else the guessed type, else
      "note" whenever the chosen value is missing or empty. */
  function ResolveType(memType: Option<string>, guess: Guess): (t: string)
    ensures t != ""
    ensures t == "note" || memType == Some(t) || guess.memType == Some(t)
    ensures memType.Some? && memType.value != "auto" && memType.value != "" ==> t == memType.value
    ensures TypeUnset(memType) && guess.memType.Some? && guess.memType.value != "" ==> t == guess.memType.value
    ensures (TypeUnset(memType) && (guess.memType.None? || guess.memType.value == "")) || memType == Some("") ==> t == "note"
  {
    var chosen := if !TypeUnset(memType) then memType else guess.memType;
    if chosen.None? || chosen.value == "" then "note" else chosen.value
  }

  datatype Resolved = Resolved(memType: string, tags: Option<seq<string>>, importance: Option<real>, summary: Option<string>)

  /** Each explicit field beats the guess. */
  function Resolve(req: CreateRequest, guess: Guess): (r: Resolved)
    ensures r.memType == ResolveType(req.memType, guess)
    ensures r.tags == if req.tags.Some? then req.tags else guess.tags
    ensures r.importance == if req.importance.Some? then req.importance else guess.importance
    ensures r.summary == if req.summary.Some? then req.summary else guess.summary
  {
    Resolved(ResolveType(req.memType, guess),
             if req.tags.Some? then req.tags else guess.tags,
             if req.importance.Some? then req.importance else guess.importance,
             if req.summary.Some? then req.summary else guess.summary)
  }

  /** The fields `create_memory` writes, given the classifier oracle. */
  function ResolveRequest(req: CreateRequest, aiDefault: bool, classify: string -> Classified): (r: Result<Resolved, Error>)
    ensures r.Err? <==> ConsultsClassifier(req, aiDefault) && classify(req.text).OtherFailure?
    ensures r.Ok? ==> r.value.memType != ""
    ensures r.Ok? && req.tags.Some? ==> r.value.tags == req.tags
    ensures r.Ok? && req.importance.Some? ==> r.value.importance == req.importance
    ensures r.Ok? && req.summary.Some? ==> r.value.summary == req.summary
    ensures r.Ok? && !TypeUnset(req.memType) && req.memType.value != "" ==> r.value.memType == req.memType.value
    ensures ConsultsClassifier(req, aiDefault) && classify(req.text).Guessed? ==> r == Ok(Resolve(req, classify(req.text).guess))
    ensures !ConsultsClassifier(req, aiDefault) ==> r == Ok(Resolve(req, NoGuess))
  {
    if !ConsultsClassifier(req, aiDefault) then Ok(Resolve(req, NoGuess))
    else
      match classify(req.text)
      case Guessed(g) => Ok(Resolve(req, g))
      case LlmError(_) => Ok(Resolve(req, NoGuess))
      case OtherFailure(msg) => Err(ClassifierFailed(msg))
  }

  /** When AI is off, or every field is given, the classifier's answer is irrelevant. */
  lemma ClassifierOnlyWhenNeeded(req: CreateRequest, aiDefault: bool, c1: string -> Classified, c2: string -> Classified)
    requires !ConsultsClassifier(req, aiDefault)
    ensures ResolveRequest(req, aiDefault, c1) == ResolveRequest(req, aiDefault, c2) == Ok(Resolve(req, NoGuess))
  {
  }

  /** An `LLMError` behaves as an empty guess: creation continues with the explicit values,
      and the type falls back to "note" unless one was given. */
  lemma LlmErrorIsEmptyGuess(req: CreateRequest, aiDefault: bool, classify: string -> Classified)
    requires classify(req.text).LlmError?
    ensures ResolveRequest(req, aiDefault, classify) == Ok(Resolve(req, NoGuess))
    ensures TypeUnset(req.memType) ==> ResolveRequest(req, aiDefault, classify).value.memType == "note"
  {
  }

  // ---------------------------------------------------------------------------
  // The tables and the invariants the engine keeps
  // ---------------------------------------------------------------------------

  /** The `memories` table by id, the `vec_memories` index by rowid, and the next id
      AUTOINCREMENT hands out. */
  datatype Tables<V> = Tables(memories: map<nat, Row>, vectors: map<nat, V>, nextId: nat)

  predicate UuidTaken<V>(t: Tables<V>, uuid: string) {
    exists id :: id in t.memories && t.memories[id].uuid == uuid
  }

  /** Each row sits under its own id. */
  predicate Keyed(memories: map<nat, Row>) {
    forall id :: id in memories ==> memories[id].id == id
  }

  /** Ids are positive, below the counter and match their key; a vector exists exactly for
      the rows that are not soft-deleted; uuids are UNIQUE. */
  predicate Consistent<V>(t: Tables<V>) {
    && 0 < t.nextId
    && Keyed(t.memories)
    && (forall id :: id in t.memories ==> 0 < id < t.nextId)
    && (forall id :: id in t.vectors ==> id in t.memories && t.memories[id].deletedAt.None?)
    && (forall id :: id in t.memories && t.memories[id].deletedAt.None? ==> id in t.vectors)
    && UniqueUuids(t.memories)
  }

  /** The UNIQUE constraint on `uuid`. */
  predicate UniqueUuids(memories: map<nat, Row>) {
    forall a, b :: a in memories && b in memories && memories[a].uuid == memories[b].uuid ==> a == b
  }

  /** Rewriting rows without touching their uuids keeps the uuids unique. */
  lemma SameUuids(m: map<nat, Row>, m': map<nat, Row>)
    requires UniqueUuids(m) && m'.Keys == m.Keys
    requires forall k :: k in m ==> m'[k].uuid == m[k].uuid
    ensures UniqueUuids(m')
  {
    forall a, b | a in m' && b in m' && m'[a].uuid == m'[b].uuid ensures a == b {
      assert m[a].uuid == m[b].uuid;
    }
  }

  /** With foreign keys on, a `cluster_id` must name a row of `clusters`. */
  predicate ClusterKnown(clusters: set<int>, clusterId: Option<int>) {
    clusterId.None? || clusterId.value in clusters
  }

  // ---------------------------------------------------------------------------
  // create_memory
  // ---------------------------------------------------------------------------

  datatype Created<V> = Created(row: Row, vector: V)

  /** The row `create_memory` inserts under `id`: caller's fields as given, the resolved ones
      with the tags normalised, both timestamps `ts`, never accessed and not deleted. */
  function NewRow(id: nat, uuid: string, req: CreateRequest, res: Resolved, ts: int): (r: Row)
    ensures r.id == id && r.uuid == uuid && r.text == req.text && r.memType == res.memType
    ensures r.createdAt == ts && r.updatedAt == ts && r.lastAccessedAt.None? && r.deletedAt.None?
    ensures r.tags == NormalizeTags(res.tags) && r.extra == StoredExtra(req.extra)
  {
    Row(id, uuid, req.userId, req.agentId, req.source, res.memType, req.text, res.summary,
        NormalizeTags(res.tags), res.importance, req.conversationId, req.clusterId,
        ts, ts, None, StoredExtra(req.extra), None)
  }

  /** What `create_memory` does to tables `t`: resolve the fields (the classifier may fail),
      embed the text (before the transaction), then insert the row and its vector, which
      fails on a taken uuid or an unknown cluster. */
  function PlanCreate<V>(t: Tables<V>, clusters: set<int>, req: CreateRequest, aiDefault: bool,
                         classify: string -> Classified, embed: string -> Result<V, string>,
                         ts: int, uuid: string): (r: Result<Created<V>, Error>)
    ensures r.Ok? ==> r.value.row.id == t.nextId && r.value.row.uuid == uuid && !UuidTaken(t, uuid)
    ensures r.Ok? ==> embed(req.text) == Ok(r.value.vector) && ClusterKnown(clusters, r.value.row.clusterId)
    ensures r == Err(UuidConflict) ==> UuidTaken(t, uuid)
  {
    match ResolveRequest(req, aiDefault, classify)
    case Err(e) => Err(e)
    case Ok(res) =>
      match embed(req.text)
      case Err(msg) => Err(EmbeddingFailed(msg))
      case Ok(v) =>
        if UuidTaken(t, uuid) then Err(UuidConflict)
        else if !ClusterKnown(clusters, req.clusterId) then Err(UnknownCluster(req.clusterId.value))
        else Ok(Created(NewRow(t.nextId, uuid, req, res, ts), v))
  }

  /** The insert adds the row and its vector under the row's id and changes nothing else;
      the counter moves one past the id. */
  function Insert<V>(t: Tables<V>, c: Created<V>): (t': Tables<V>)
    ensures t'.memories.Keys == t.memories.Keys + {c.row.id} && t'.memories[c.row.id] == c.row
    ensures t'.vectors.Keys == t.vectors.Keys + {c.row.id} && t'.vectors[c.row.id] == c.vector
    ensures forall k :: k in t.memories && k != c.row.id ==> t'.memories[k] == t.memories[k]
    ensures forall k :: k in t.vectors && k != c.row.id ==> t'.vectors[k] == t.vectors[k]
    ensures t'.nextId == c.row.id + 1
  {
    Tables(t.memories[c.row.id := c.row], t.vectors[c.row.id := c.vector], c.row.id + 1)
  }

  /** Creation fails exactly on a classifier failure that is not an `LLMError`, a failed
      embedding, a taken uuid or an unknown cluster. */
  lemma CreateFailures<V>(t: Tables<V>, clusters: set<int>, req: CreateRequest, aiDefault: bool,
                          classify: string -> Classified, embed: string -> Result<V, string>, ts: int, uuid: string)
    ensures PlanCreate(t, clusters, req, aiDefault, classify, embed, ts, uuid).Err? <==>
      || (ConsultsClassifier(req, aiDefault) && classify(req.text).OtherFailure?)
      || embed(req.text).Err?
      || UuidTaken(t, uuid)
      || !ClusterKnown(clusters, req.clusterId)
  {
  }

  /** The new record: a fresh id and the given uuid, both timestamps `ts`, never accessed
      nor deleted, the text as given and a non-empty type; its vector lands under the same
      id and no other row or vector changes. */
  lemma CreateRecord<V>(t: Tables<V>, clusters: set<int>, req: CreateRequest, aiDefault: bool,
                        classify: string -> Classified, embed: string -> Result<V, string>, ts: int, uuid: string)
    requires Consistent(t)
    requires PlanCreate(t, clusters, req, aiDefault, classify, embed, ts, uuid).Ok?
    ensures var c := PlanCreate(t, clusters, req, aiDefault, classify, embed, ts, uuid).value;
      var t' := Insert(t, c);
      && c.row.id !in t.memories && c.row.id !in t.vectors
      && c.row.uuid == uuid && !UuidTaken(t, uuid)
      && c.row.createdAt == ts && c.row.updatedAt == ts
      && c.row.lastAccessedAt.None? && c.row.deletedAt.None?
      && c.row.text == req.text && c.row.memType != ""
      && c.vector == embed(req.text).value
      && t'.memories.Keys == t.memories.Keys + {c.row.id}
      && t'.vectors.Keys == t.vectors.Keys + {c.row.id}
      && (forall id :: id in t.memories ==> t'.memories[id] == t.memories[id])
      && (forall id :: id in t.vectors ==> t'.vectors[id] == t.vectors[id])
  {
  }

  /** Creation keeps the invariants. */
  lemma CreateKeepsConsistent<V>(t: Tables<V>, c: Created<V>)
    requires Consistent(t)
    requires c.row.id == t.nextId && c.row.deletedAt.None? && !UuidTaken(t, c.row.uuid)
    ensures Consistent(Insert(t, c))
  {
  }

  /** What a caller reads back from a creation made with explicit values: tags become their
      distinct stripped non-blank entries, explicit importance and summary are kept, an
      explicit type other than "auto" is kept, and an empty `extra_json` reads back as `None`. */
  lemma CreateReadBack<V>(t: Tables<V>, clusters: set<int>, req: CreateRequest, aiDefault: bool,
                          classify: string -> Classified, embed: string -> Result<V, string>, ts: int, uuid: string)
    requires PlanCreate(t, clusters, req, aiDefault, classify, embed, ts, uuid).Ok?
    ensures var m := ToMemory(PlanCreate(t, clusters, req, aiDefault, classify, embed, ts, uuid).value.row, None);
      && (req.tags.Some? && (forall i :: 0 <= i < |req.tags.value| ==> ',' !in req.tags.value[i]) ==>
            m.tags == Dedup(Cleaned(req.tags.value)))
      && (req.importance.Some? ==> m.importance == req.importance)
      && (req.summary.Some? ==> m.summary == req.summary)
      && (!TypeUnset(req.memType) && req.memType.value != "" ==> m.memType == req.memType.value)
      && m.extra == StoredExtra(req.extra)
      && m.userId == req.userId && m.agentId == req.agentId && m.source == req.source
      && m.conversationId == req.conversationId && m.clusterId == req.clusterId
  {
    if req.tags.Some? && (forall i :: 0 <= i < |req.tags.value| ==> ',' !in req.tags.value[i]) {
      ParseNormalize(req.tags.value);
    }
  }
  /** When the classifier is consulted and answers with a guess, the stored memory takes every
      field the caller left unset from the guess: the type (with the "note" fallback), the
      importance, the summary and the tags, which are normalised like given ones. */
  lemma CreateUsesGuess<V>(t: Tables<V>, clusters: set<int>, req: CreateRequest, aiDefault: bool,
                           classify: string -> Classified, embed: string -> Result<V, string>, ts: int, uuid: string)
    requires ConsultsClassifier(req, aiDefault) && classify(req.text).Guessed?
    requires PlanCreate(t, clusters, req, aiDefault, classify, embed, ts, uuid).Ok?
    ensures var g := classify(req.text).guess;
      var row := PlanCreate(t, clusters, req, aiDefault, classify, embed, ts, uuid).value.row;
      var m := ToMemory(row, None);
      && m.memType == ResolveType(req.memType, g)
      && (TypeUnset(req.memType) && g.memType.Some? && g.memType.value != "" ==> m.memType == g.memType.value)
      && (req.importance.None? ==> m.importance == g.importance)
      && (req.summary.None? ==> m.summary == g.summary)
      && (req.tags.None? ==> row.tags == NormalizeTags(g.tags))
      && (req.tags.None? && g.tags.Some? && (forall i :: 0 <= i < |g.tags.value| ==> ',' !in g.tags.value[i]) ==>
            m.tags == Dedup(Cleaned(g.tags.value)))
  {
    var g := classify(req.text).guess;
    if req.tags.None? && g.tags.Some? && (forall i :: 0 <= i < |g.tags.value| ==> ',' !in g.tags.value[i]) {
      ParseNormalize(g.tags.value);
    }
  }


  // ---------------------------------------------------------------------------
  // get_memory
  // ---------------------------------------------------------------------------

  /** `get_memory` selects by id alone, so soft-deleted rows are returned too. */
  function Lookup<V>(t: Tables<V>, id: nat): (r: Option<Memory>)
    ensures r.Some? <==> id in t.memories
    ensures r.Some? ==> r.value == ToMemory(t.memories[id], None)
  {
    if id in t.memories then Some(ToMemory(t.memories[id], None)) else None
  }

  // ---------------------------------------------------------------------------
  // search_memories
  // ---------------------------------------------------------------------------

  /** One conjunct of the WHERE clause. */
  datatype Condition =
    | NotDeleted
    | TypeIs(memType: string)
    | TagLike(tag: string)
    | CreatedSince(bound: int)
    | CreatedUntil(bound: int)

  /** `m.tags LIKE '%tag%'` is substring containment here; a NULL column never matches. */
  predicate Holds(row: Row, c: Condition) {
    match c
    case NotDeleted => row.deletedAt.None?
    case TypeIs(t) => row.memType == t
    case TagLike(tag) => row.tags.Some? && Contains(row.tags.value, tag)
    case CreatedSince(b) => row.createdAt >= b
    case CreatedUntil(b) => row.createdAt <= b
  }

  predicate HoldsAll(row: Row, conds: seq<Condition>) {
    forall i :: 0 <= i < |conds| ==> Holds(row, conds[i])
  }

  /** One LIKE filter per requested tag, in the order of the tags. */
  function TagConditions(tags: seq<string>): (r: seq<Condition>)
    ensures |r| == |tags|
  {
    if tags == [] then [] else TagConditions(tags[..|tags| - 1]) + [TagLike(tags[|tags| - 1])]
  }

  lemma {:induction false} TagConditionsAt(tags: seq<string>)
    ensures forall i :: 0 <= i < |tags| ==> TagConditions(tags)[i] == TagLike(tags[i])
  {
    if tags != [] {
      var init := tags[..|tags| - 1];
      TagConditionsAt(init);
      assert forall i :: 0 <= i < |init| ==> init[i] == tags[i];
    }
  }

  /** An empty type filter adds no condition, like a missing one. */
  function TypeCondition(typeFilter: Option<string>): (r: seq<Condition>)
    ensures r == [] <==> typeFilter.None? || typeFilter.value == ""
    ensures r != [] ==> r == [TypeIs(typeFilter.value)]
  {
    if typeFilter.Some? && typeFilter.value != "" then [TypeIs(typeFilter.value)] else []
  }

  /** One creation-time test per given bound, the lower one first, and nothing else. */
  function BoundConditions(since: Option<int>, until: Option<int>): (r: seq<Condition>)
    ensures |r| <= 2 && (r == [] <==> since.None? && until.None?)
    ensures since.Some? ==> r[0] == CreatedSince(since.value)
    ensures until.Some? ==> r[|r| - 1] == CreatedUntil(until.value)
    ensures forall c :: c in r ==> c.CreatedSince? || c.CreatedUntil?
  {
    (if since.Some? then [CreatedSince(since.value)] else []) + (if until.Some? then [CreatedUntil(until.value)] else [])
  }

  /** The WHERE clause `search_memories` builds, in the order it appends the conjuncts. */
  function Conditions(typeFilter: Option<string>, tags: Option<seq<string>>, since: Option<int>, until: Option<int>): (r: seq<Condition>)
    ensures |r| >= 1 && r[0] == NotDeleted
  {
    [NotDeleted] + TypeCondition(typeFilter) + TagConditions(tags.GetOr([])) + BoundConditions(since, until)
  }

  /** Every requested tag occurs in the row's tag text, which is not NULL. */
  predicate HasTags(row: Row, tags: seq<string>) {
    forall i :: 0 <= i < |tags| ==> row.tags.Some? && Contains(row.tags.value, tags[i])
  }

  /** The search criteria stated directly: live, of the requested type when one is given
      (an empty type means none), holding every requested tag as a substring of its tag
      text, and created within the given bounds. */
  predicate Matches(row: Row, typeFilter: Option<string>, tags: Option<seq<string>>, since: Option<int>, until: Option<int>) {
    && row.deletedAt.None?
    && (typeFilter.Some? && typeFilter.value != "" ==> row.memType == typeFilter.value)
    && (tags.Some? ==> HasTags(row, tags.value))
    && (since.Some? ==> since.value <= row.createdAt)
    && (until.Some? ==> row.createdAt <= until.value)
  }

  lemma HoldsAllConcat(row: Row, a: seq<Condition>, b: seq<Condition>)
    ensures HoldsAll(row, a + b) <==> HoldsAll(row, a) && HoldsAll(row, b)
  {
    if HoldsAll(row, a) && HoldsAll(row, b) {
      forall i | 0 <= i < |a + b| ensures Holds(row, (a + b)[i]) {
        if i >= |a| { assert (a + b)[i] == b[i - |a|]; }
      }
    }
    if HoldsAll(row, a + b) {
      forall i | 0 <= i < |b| ensures Holds(row, b[i]) { assert (a + b)[|a| + i] == b[i]; }
      forall i | 0 <= i < |a| ensures Holds(row, a[i]) { assert (a + b)[i] == a[i]; }
    }
  }

  lemma HoldsAllSingle(row: Row, c: Condition)
    ensures HoldsAll(row, [c]) <==> Holds(row, c)
  {
    assert [c][0] == c;
  }

  /** The conditions hold exactly when the row meets the criteria. */
  lemma ConditionsMeaning(row: Row, typeFilter: Option<string>, tags: Option<seq<string>>, since: Option<int>, until: Option<int>)
    ensures HoldsAll(row, Conditions(typeFilter, tags, since, until)) <==> Matches(row, typeFilter, tags, since, until)
  {
    var a, b, c, d := [NotDeleted], TypeCondition(typeFilter), TagConditions(tags.GetOr([])), BoundConditions(since, until);
    HoldsAllConcat(row, a + b + c, d);
    HoldsAllConcat(row, a + b, c);
    HoldsAllConcat(row, a, b);
    var s := if since.Some? then [CreatedSince(since.value)] else [];
    var u := if until.Some? then [CreatedUntil(until.value)] else [];
    HoldsAllConcat(row, s, u);
    HoldsAllSingle(row, NotDeleted);
    if typeFilter.Some? && typeFilter.value != "" { HoldsAllSingle(row, TypeIs(typeFilter.value)); }
    if since.Some? { HoldsAllSingle(row, CreatedSince(since.value)); }
    if until.Some? { HoldsAllSingle(row, CreatedUntil(until.value)); }
    if tags.Some? {
      TagConditionsAt(tags.value);
      assert HoldsAll(row, c) <==> forall i :: 0 <= i < |tags.value| ==> Holds(row, TagLike(tags.value[i])) by {
        if HoldsAll(row, c) {
          forall i | 0 <= i < |tags.value| ensures Holds(row, TagLike(tags.value[i])) { assert c[i] == TagLike(tags.value[i]); }
        }
      }
    }
  }

  predicate SortedBy(ids: seq<nat>, dist: nat -> int) {
    forall i, j :: 0 <= i < j < |ids| ==> dist(ids[i]) <= dist(ids[j])
  }

  /** The answer of the vector index to `MATCH ... ORDER BY distance LIMIT k`: the `k` ids
      (or all, if fewer are indexed) nearest by `dist`, each once, nearest first. */
  predicate IsNearest(matches: seq<nat>, ids: set<nat>, dist: nat -> int, k: nat) {
    && |matches| == (if k < |ids| then k else |ids|)
    && Distinct(matches)
    && (forall i :: 0 <= i < |matches| ==> matches[i] in ids)
    && SortedBy(matches, dist)
    && (forall i, x :: 0 <= i < |matches| && x in ids && x !in matches ==> dist(matches[i]) <= dist(x))
  }

  /** The joined, filtered rows in the order of `matches`, each with its distance. */
  function Hits(memories: map<nat, Row>, matches: seq<nat>, dist: nat -> int, conds: seq<Condition>): (r: seq<Memory>)
    ensures |r| <= |matches|
  {
    if matches == [] then []
    else
      var id := matches[0];
      var rest := Hits(memories, matches[1..], dist, conds);
      if id in memories && HoldsAll(memories[id], conds) then [ToMemory(memories[id], Some(dist(id)))] + rest else rest
  }

  /** Every result is the row of one of the matched ids, meets every condition and carries
      that id's distance. */
  lemma {:induction false} HitsSound(memories: map<nat, Row>, matches: seq<nat>, dist: nat -> int, conds: seq<Condition>)
    requires Keyed(memories)
    ensures forall m :: m in Hits(memories, matches, dist, conds) ==>
      m.id in matches && m.id in memories && HoldsAll(memories[m.id], conds)
      && m == ToMemory(memories[m.id], Some(dist(m.id)))
  {
    if matches != [] {
      HitsSound(memories, matches[1..], dist, conds);
    }
  }

  /** Every matched id whose row meets the conditions is among the results. */
  lemma {:induction false} HitsComplete(memories: map<nat, Row>, matches: seq<nat>, dist: nat -> int, conds: seq<Condition>)
    ensures forall i :: 0 <= i < |matches| && matches[i] in memories && HoldsAll(memories[matches[i]], conds) ==>
      ToMemory(memories[matches[i]], Some(dist(matches[i]))) in Hits(memories, matches, dist, conds)
  {
    if matches != [] {
      HitsComplete(memories, matches[1..], dist, conds);
      forall i | 1 <= i < |matches| ensures matches[i] == matches[1..][i - 1] { }
    }
  }

  /** Distances present and ascending. */
  predicate NearestFirst(r: seq<Memory>) {
    forall i, j :: 0 <= i < j < |r| ==> r[i].distance.Some? && r[j].distance.Some? && r[i].distance.value <= r[j].distance.value
  }

  lemma {:induction false} HitsAtLeast(memories: map<nat, Row>, matches: seq<nat>, dist: nat -> int, conds: seq<Condition>, lo: int)
    requires forall i :: 0 <= i < |matches| ==> lo <= dist(matches[i])
    ensures forall m :: m in Hits(memories, matches, dist, conds) ==> m.distance.Some? && lo <= m.distance.value
  {
    if matches != [] {
      HitsAtLeast(memories, matches[1..], dist, conds, lo);
    }
  }

  lemma NearestFirstCons(x: Memory, rest: seq<Memory>)
    requires x.distance.Some? && NearestFirst(rest)
    requires forall m :: m in rest ==> m.distance.Some? && x.distance.value <= m.distance.value
    ensures NearestFirst([x] + rest)
  {
    var r := [x] + rest;
    forall i, j | 0 <= i < j < |r| ensures r[i].distance.Some? && r[j].distance.Some? && r[i].distance.value <= r[j].distance.value {
      assert r[j] == rest[j - 1];
      if i > 0 { assert r[i] == rest[i - 1]; }
    }
  }

  /** Results come nearest first when the matches do. */
  lemma {:induction false} HitsOrdered(memories: map<nat, Row>, matches: seq<nat>, dist: nat -> int, conds: seq<Condition>)
    requires SortedBy(matches, dist)
    ensures NearestFirst(Hits(memories, matches, dist, conds))
  {
    if matches != [] {
      assert SortedBy(matches[1..], dist);
      HitsOrdered(memories, matches[1..], dist, conds);
      HitsAtLeast(memories, matches[1..], dist, conds, dist(matches[0]));
      var id := matches[0];
      if id in memories && HoldsAll(memories[id], conds) {
        NearestFirstCons(ToMemory(memories[id], Some(dist(id))), Hits(memories, matches[1..], dist, conds));
      }
    }
  }

  /** Extra conditions only remove results. */
  lemma {:induction false} FiltersOnlyRemove(memories: map<nat, Row>, matches: seq<nat>, dist: nat -> int,
                                             conds: seq<Condition>, more: seq<Condition>)
    ensures forall m :: m in Hits(memories, matches, dist, conds + more) ==> m in Hits(memories, matches, dist, conds)
  {
    if matches != [] {
      FiltersOnlyRemove(memories, matches[1..], dist, conds, more);
      var id := matches[0];
      if id in memories {
        HoldsAllConcat(memories[id], conds, more);
      }
    }
  }

  /** A search only ever returns live rows among the `k` nearest indexed ids, so at most
      `k` of them, each meeting the criteria. */
  lemma SearchSound<V>(t: Tables<V>, matches: seq<nat>, dist: nat -> int, k: nat,
                       typeFilter: Option<string>, tags: Option<seq<string>>, since: Option<int>, until: Option<int>)
    requires Consistent(t) && IsNearest(matches, t.vectors.Keys, dist, k)
    ensures var r := Hits(t.memories, matches, dist, Conditions(typeFilter, tags, since, until));
      && |r| <= k
      && forall m :: m in r ==> m.id in t.vectors && m.deletedAt.None? && Matches(t.memories[m.id], typeFilter, tags, since, until)
  {
    var conds := Conditions(typeFilter, tags, since, until);
    HitsSound(t.memories, matches, dist, conds);
    forall m | m in Hits(t.memories, matches, dist, conds)
      ensures m.id in t.vectors && m.deletedAt.None? && Matches(t.memories[m.id], typeFilter, tags, since, until)
    {
      ConditionsMeaning(t.memories[m.id], typeFilter, tags, since, until);
      var j :| 0 <= j < |matches| && matches[j] == m.id;
    }
  }

  // ---------------------------------------------------------------------------
  // update_memory
  // ---------------------------------------------------------------------------

  /** The optional keyword arguments of `update_memory`. */
  datatype Patch = Patch(text: Option<string>, memType: Option<string>, tags: Option<seq<string>>,
                         importance: Option<real>, summary: Option<string>, clusterId: Option<int>)

  /** Each absent argument keeps the stored value; given tags are normalised (so `[]`
      clears them); `updated_at` becomes `ts`; every other column stays. */
  function Patched(row: Row, p: Patch, ts: int): (r: Row)
    ensures r.text == (if p.text.Some? then p.text.value else row.text)
    ensures r.memType == (if p.memType.Some? then p.memType.value else row.memType)
    ensures r.tags == (if p.tags.Some? then NormalizeTags(p.tags) else row.tags)
    ensures r.importance == (if p.importance.Some? then p.importance else row.importance)
    ensures r.summary == (if p.summary.Some? then p.summary else row.summary)
    ensures r.clusterId == (if p.clusterId.Some? then p.clusterId else row.clusterId)
    ensures r.updatedAt == ts
    ensures r == row.(text := r.text, memType := r.memType, tags := r.tags, importance := r.importance,
                      summary := r.summary, clusterId := r.clusterId, updatedAt := ts)
  {
    row.(text := p.text.GetOr(row.text),
         memType := p.memType.GetOr(row.memType),
         tags := if p.tags.Some? then NormalizeTags(p.tags) else row.tags,
         importance := if p.importance.Some? then p.importance else row.importance,
         summary := if p.summary.Some? then p.summary else row.summary,
         clusterId := if p.clusterId.Some? then p.clusterId else row.clusterId,
         updatedAt := ts)
  }

  datatype Updated<V> = Updated(row: Row, vector: Option<V>)

  /** What `update_memory` does: nothing for a missing or soft-deleted id; otherwise the
      patched row, re-embedded when the text is given. The UPDATE fails on an unknown
      cluster; a failed embedding happens inside the transaction and undoes the UPDATE. */
  function PlanUpdate<V>(t: Tables<V>, clusters: set<int>, id: nat, p: Patch, ts: int,
                         embed: string -> Result<V, string>): (r: Result<Option<Updated<V>>, Error>)
    ensures r == Ok(None) <==> id !in t.memories || t.memories[id].deletedAt.Some?
    ensures r.Ok? && r.value.Some? ==> r.value.value.row == Patched(t.memories[id], p, ts)
    ensures r.Ok? && r.value.Some? ==> (r.value.value.vector.Some? <==> p.text.Some?)
    ensures r.Err? ==> id in t.memories && t.memories[id].deletedAt.None?
  {
    if id !in t.memories || t.memories[id].deletedAt.Some? then Ok(None)
    else
      var row := Patched(t.memories[id], p, ts);
      if !ClusterKnown(clusters, row.clusterId) then Err(UnknownCluster(row.clusterId.value))
      else if p.text.None? then Ok(Some(Updated(row, None)))
      else
        match embed(row.text)
        case Err(msg) => Err(EmbeddingFailed(msg))
        case Ok(v) => Ok(Some(Updated(row, Some(v))))
  }

  /** The upsert into the vector index happens only when a vector was computed. */
  function ApplyUpdate<V>(t: Tables<V>, u: Updated<V>): (t': Tables<V>)
    ensures t'.memories.Keys == t.memories.Keys + {u.row.id} && t'.memories[u.row.id] == u.row
    ensures forall k :: k in t.memories && k != u.row.id ==> t'.memories[k] == t.memories[k]
    ensures u.vector.None? ==> t'.vectors == t.vectors
    ensures u.vector.Some? ==> u.row.id in t'.vectors && t'.vectors[u.row.id] == u.vector.value
    ensures t'.nextId == t.nextId
  {
    Tables(t.memories[u.row.id := u.row],
           if u.vector.Some? then t.vectors[u.row.id := u.vector.value] else t.vectors,
           t.nextId)
  }

  /** Outcomes of `update_memory`: `None` exactly for a missing or soft-deleted id; an error
      exactly for an unknown cluster or a failed embedding of given text; otherwise the
      patched row, with a new vector exactly when text was given. */
  lemma UpdateOutcomes<V>(t: Tables<V>, clusters: set<int>, id: nat, p: Patch, ts: int, embed: string -> Result<V, string>)
    ensures var r := PlanUpdate(t, clusters, id, p, ts, embed);
      && (r == Ok(None) <==> id !in t.memories || t.memories[id].deletedAt.Some?)
      && (r.Err? <==>
            (id in t.memories && t.memories[id].deletedAt.None? &&
             (!ClusterKnown(clusters, Patched(t.memories[id], p, ts).clusterId) ||
              (p.text.Some? && embed(p.text.value).Err?))))
      && (r.Ok? && r.value.Some? ==>
            r.value.value.row == Patched(t.memories[id], p, ts) &&
            (r.value.value.vector.Some? <==> p.text.Some?) &&
            (p.text.Some? ==> r.value.value.vector == Some(embed(p.text.value).value)))
  {
  }

  /** An update changes only its own row, keeps uuid, timestamps of creation and deletion,
      leaves the vectors alone without new text and replaces the id's vector with it. */
  lemma UpdateEffect<V>(t: Tables<V>, clusters: set<int>, id: nat, p: Patch, ts: int, embed: string -> Result<V, string>)
    requires Consistent(t)
    requires PlanUpdate(t, clusters, id, p, ts, embed).Ok? && PlanUpdate(t, clusters, id, p, ts, embed).value.Some?
    ensures var u := PlanUpdate(t, clusters, id, p, ts, embed).value.value;
      var t' := ApplyUpdate(t, u);
      && u.row.id == id && u.row.uuid == t.memories[id].uuid
      && u.row.createdAt == t.memories[id].createdAt && u.row.deletedAt == t.memories[id].deletedAt
      && t'.memories.Keys == t.memories.Keys && t'.nextId == t.nextId
      && (forall k :: k in t.memories && k != id ==> t'.memories[k] == t.memories[k])
      && (p.text.None? ==> t'.vectors == t.vectors)
      && (p.text.Some? ==> t'.vectors == t.vectors[id := embed(p.text.value).value])
      && Consistent(t')
  {
    var u := PlanUpdate(t, clusters, id, p, ts, embed).value.value;
    SameUuids(t.memories, ApplyUpdate(t, u).memories);
  }

  /** Passing `[]` as the tags clears them. */
  lemma EmptyTagsClear(row: Row, p: Patch, ts: int)
    requires p.tags == Some([])
    ensures Patched(row, p, ts).tags.None?
  {
  }

  // ---------------------------------------------------------------------------
  // delete_memory
  // ---------------------------------------------------------------------------

  /** `delete_memory`: stamp `deleted_at` on the row (whether or not it was already set)
      and drop its vector; a missing id touches no row. */
  function SoftDeleted<V>(t: Tables<V>, id: nat, ts: int): (t': Tables<V>)
    ensures t'.memories.Keys == t.memories.Keys && t'.vectors.Keys == t.vectors.Keys - {id}
    ensures id in t.memories ==> t'.memories[id].deletedAt == Some(ts)
    ensures t'.nextId == t.nextId
  {
    Tables(if id in t.memories then t.memories[id := t.memories[id].(deletedAt := Some(ts))] else t.memories,
           t.vectors - {id},
           t.nextId)
  }

  /** Deletion keeps the invariants, changes only `deleted_at` of its own row and that
      row's vector, and a missing id changes nothing at all. */
  lemma DeleteEffect<V>(t: Tables<V>, id: nat, ts: int)
    requires Consistent(t)
    ensures var t' := SoftDeleted(t, id, ts);
      && Consistent(t')
      && t'.memories.Keys == t.memories.Keys && id !in t'.vectors
      && (id in t.memories ==> t'.memories[id] == t.memories[id].(deletedAt := Some(ts)))
      && (forall k :: k in t.memories && k != id ==> t'.memories[k] == t.memories[k])
      && (forall k :: k in t.vectors && k != id ==> k in t'.vectors && t'.vectors[k] == t.vectors[k])
      && (id !in t.memories ==> t' == t)
  {
    var t' := SoftDeleted(t, id, ts);
    if id !in t.memories {
      assert t'.vectors == t.vectors;
    }
    SameUuids(t.memories, t'.memories);
  }

  /** Deleting twice is deleting once with the later stamp. */
  lemma DeleteRestamps<V>(t: Tables<V>, id: nat, ts1: int, ts2: int)
    ensures SoftDeleted(SoftDeleted(t, id, ts1), id, ts2) == SoftDeleted(t, id, ts2)
  {
    assert t.vectors - {id} - {id} == t.vectors - {id};
  }

  /** `get_memory` still returns a deleted row, with `deleted_at` set. */
  lemma GetAfterDelete<V>(t: Tables<V>, id: nat, ts: int)
    requires id in t.memories
    ensures Lookup(SoftDeleted(t, id, ts), id).Some?
    ensures Lookup(SoftDeleted(t, id, ts), id).value.deletedAt == Some(ts)
  {
  }

  /** No later search can return a deleted row: its id is no longer indexed. */
  lemma DeletedNotSearched<V>(t: Tables<V>, id: nat, ts: int, matches: seq<nat>, dist: nat -> int, k: nat, conds: seq<Condition>)
    requires Consistent(t)
    requires IsNearest(matches, SoftDeleted(t, id, ts).vectors.Keys, dist, k)
    ensures forall m :: m in Hits(SoftDeleted(t, id, ts).memories, matches, dist, conds) ==> m.id != id
  {
    DeleteEffect(t, id, ts);
    HitsSound(SoftDeleted(t, id, ts).memories, matches, dist, conds);
  }

  // ---------------------------------------------------------------------------
  // The store
  // ---------------------------------------------------------------------------

  /** The loop of `search_memories` that appends one LIKE filter per requested tag. */
  method AppendTagFilters(conds0: seq<Condition>, tags: seq<string>) returns (conds: seq<Condition>)
    ensures conds == conds0 + TagConditions(tags)
  {
    conds := conds0;
    var i := 0;
    while i < |tags|
      invariant i <= |tags|
      invariant conds == conds0 + TagConditions(tags[..i])
    {
      assert tags[..i + 1][..i] == tags[..i];
      conds := conds + [TagLike(tags[i])];
      i := i + 1;
    }
    assert tags[..i] == tags;
  }

  /** The `since` and `until` filters `search_memories` appends last. */
  method AppendBoundFilters(conds0: seq<Condition>, since: Option<int>, until: Option<int>) returns (conds: seq<Condition>)
    ensures conds == conds0 + BoundConditions(since, until)
  {
    conds := conds0;
    if since.Some? {
      conds := conds + [CreatedSince(since.value)];
    }
    if until.Some? {
      conds := conds + [CreatedUntil(until.value)];
    }
  }

  /** The WHERE clause as `search_memories` assembles it. */
  method BuildConditions(typeFilter: Option<string>, tags: Option<seq<string>>, since: Option<int>, until: Option<int>)
    returns (conds: seq<Condition>)
    ensures conds == Conditions(typeFilter, tags, since, until)
  {
    conds := [NotDeleted];
    if typeFilter.Some? && typeFilter.value != "" {
      conds := conds + [TypeIs(typeFilter.value)];
    }
    conds := AppendTagFilters(conds, tags.GetOr([]));
    conds := AppendBoundFilters(conds, since, until);
  }

  /** The two tables and the AUTOINCREMENT counter, updated in place by the operations;
      `clusters` holds the ids of the `clusters` table, which the engine never writes. */
  class Store<V> {
    var memories: map<nat, Row>
    var vectors: map<nat, V>
    var nextId: nat
    var clusters: set<int>

    function Snapshot(): Tables<V>
      reads this
    {
      Tables(memories, vectors, nextId)
    }

    ghost predicate Valid()
      reads this
    {
      Consistent(Snapshot())
    }

    /** A freshly created schema: no rows, no vectors, no clusters. */
    constructor ()
      ensures Valid()
      ensures memories == map[] && vectors == map[] && nextId == 1 && clusters == {}
    {
      memories := map[];
      vectors := map[];
      nextId := 1;
      clusters := {};
    }

    /** Leave `db_conn` with the body's exit: commit the working tables or keep the old ones. */
    method Finish(before: Tables<V>, working: Tables<V>, exit: Db.Exit<Error>)
      modifies this
      ensures Snapshot() == Db.Persisted(before, working, exit)
      ensures clusters == old(clusters)
    {
      var after := Db.Persisted(before, working, exit);
      memories, vectors, nextId := after.memories, after.vectors, after.nextId;
    }

    /** `create_memory`. */
    method Create(req: CreateRequest, aiDefault: bool, classify: string -> Classified,
                  embed: string -> Result<V, string>, ts: int, uuid: string)
      returns (r: Result<Memory, Error>)
      requires Valid()
      modifies this
      ensures Valid() && clusters == old(clusters)
      ensures var plan := PlanCreate(old(Snapshot()), clusters, req, aiDefault, classify, embed, ts, uuid);
        && (plan.Ok? ==> r == Ok(ToMemory(plan.value.row, None)) && Snapshot() == Insert(old(Snapshot()), plan.value))
        && (plan.Err? ==> r == Err(plan.error) && Snapshot() == old(Snapshot()))
    {
      var guess := NoGuess;
      if AiEnabled(req, aiDefault) && Unresolved(req) {
        match classify(req.text)
        case Guessed(g) => guess := g;
        case LlmError(_) => guess := NoGuess;
        case OtherFailure(msg) => return Err(ClassifierFailed(msg));
      }
      var resolved := Resolve(req, guess);
      var embedded := embed(req.text);
      if embedded.Err? {
        return Err(EmbeddingFailed(embedded.error));
      }
      var before := Snapshot();
      var working := before;
      var exit: Db.Exit<Error> := Db.Completed;
      var row := NewRow(nextId, uuid, req, resolved, ts);
      if UuidTaken(working, uuid) {
        exit := Db.Raised(UuidConflict);
      } else if !ClusterKnown(clusters, req.clusterId) {
        exit := Db.Raised(UnknownCluster(req.clusterId.value));
      } else {
        working := working.(memories := working.memories[row.id := row], nextId := row.id + 1);
        working := working.(vectors := working.vectors[row.id := embedded.value]);
      }
      Finish(before, working, exit);
      if exit.Raised? {
        return Err(exit.error);
      }
      CreateKeepsConsistent(before, Created(row, embedded.value));
      r := Ok(ToMemory(memories[row.id], None));
    }

    /** `get_memory`. */
    method Get(id: nat) returns (r: Option<Memory>)
      ensures r == Lookup(Snapshot(), id)
    {
      if id in memories {
        r := Some(ToMemory(memories[id], None));
      } else {
        r := None;
      }
    }

    /** `search_memories`: `dist` is the index's distance from the query's embedding to each
        stored vector and `matches` its answer to the top-`topK` MATCH. */
    method Search(query: string, topK: nat, typeFilter: Option<string>, tags: Option<seq<string>>,
                  since: Option<int>, until: Option<int>,
                  embed: string -> Result<V, string>, dist: nat -> int, matches: seq<nat>)
      returns (r: Result<seq<Memory>, Error>)
      requires Valid()
      requires IsNearest(matches, vectors.Keys, dist, topK)
      ensures embed(query).Err? ==> r == Err(EmbeddingFailed(embed(query).error))
      ensures embed(query).Ok? ==> r == Ok(Hits(memories, matches, dist, Conditions(typeFilter, tags, since, until)))
      ensures r.Ok? ==> |r.value| <= topK && NearestFirst(r.value)
    {
      var embedded := embed(query);
      if embedded.Err? {
        return Err(EmbeddingFailed(embedded.error));
      }
      var conds := BuildConditions(typeFilter, tags, since, until);
      HitsOrdered(memories, matches, dist, conds);
      r := Ok(Hits(memories, matches, dist, conds));
    }

    /** `update_memory`. */
    method Update(id: nat, p: Patch, ts: int, embed: string -> Result<V, string>)
      returns (r: Result<Option<Memory>, Error>)
      requires Valid()
      modifies this
      ensures Valid() && clusters == old(clusters)
      ensures var plan := PlanUpdate(old(Snapshot()), clusters, id, p, ts, embed);
        && (plan.Err? ==> r == Err(plan.error) && Snapshot() == old(Snapshot()))
        && (plan == Ok(None) ==> r == Ok(None) && Snapshot() == old(Snapshot()))
        && (plan.Ok? && plan.value.Some? ==>
              r == Ok(Some(ToMemory(plan.value.value.row, None))) &&
              Snapshot() == ApplyUpdate(old(Snapshot()), plan.value.value))
    {
      var before := Snapshot();
      if id !in memories || memories[id].deletedAt.Some? {
        Finish(before, before, Db.Completed);
        return Ok(None);
      }
      var row := Patched(memories[id], p, ts);
      var working := before;
      var exit: Db.Exit<Error> := Db.Completed;
      var vector: Option<V> := None;
      if !ClusterKnown(clusters, row.clusterId) {
        exit := Db.Raised(UnknownCluster(row.clusterId.value));
      } else {
        working := working.(memories := working.memories[id := row]);
        if p.text.Some? {
          var embedded := embed(row.text);
          if embedded.Err? {
            exit := Db.Raised(EmbeddingFailed(embedded.error));
          } else {
            vector := Some(embedded.value);
            working := working.(vectors := working.vectors[id := embedded.value]);
          }
        }
      }
      Finish(before, working, exit);
      if exit.Raised? {
        return Err(exit.error);
      }
      UpdateEffect(before, clusters, id, p, ts, embed);
      assert Snapshot() == ApplyUpdate(before, Updated(row, vector));
      r := Ok(Some(ToMemory(memories[id], None)));
    }

    /** `delete_memory`. */
    method Delete(id: nat, ts: int)
      requires Valid()
      modifies this
      ensures Valid() && clusters == old(clusters)
      ensures Snapshot() == SoftDeleted(old(Snapshot()), id, ts)
    {
      var before := Snapshot();
      var working := before;
      if id in working.memories {
        working := working.(memories := working.memories[id := working.memories[id].(deletedAt := Some(ts))]);
      }
      working := working.(vectors := working.vectors - {id});
      Finish(before, working, Db.Completed);
      DeleteEffect(before, id, ts);
    }
  }
}
