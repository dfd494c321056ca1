/** The server side of the notes chat: the note index kept in memory, the owner
    filter applied to every search, and the chat events published while an
    answer is generated. */
module ChatServer {
  import opened Wrappers
  import opened JsValues

  /** The note fields the index reads. */
  datatype Note = Note(id: string, title: string, body: string, userId: string)

  /** A record's metadata object, as untyped as the vector store keeps it. */
  type Metadata = map<string, Json>

  /** A document handed to the index, and an entry of the in-memory store (its
      embedding is not part of the model). */
  datatype Document = Document(pageContent: string, metadata: Metadata)

  // ---------------------------------------------------------------------------
  // Documents and chunks
  // ---------------------------------------------------------------------------

  /** The text and metadata indexed for one note. */
  function CreateDocument(note: Note): (d: Document)
    ensures |d.pageContent| == |note.title| + 1 + |note.body|
    ensures d.pageContent[..|note.title|] == note.title
    ensures d.pageContent[|note.title|] == '\n'
    ensures d.pageContent[|note.title| + 1..] == note.body
    ensures d.metadata.Keys == {"id", "title", "userId"}
    ensures d.metadata["id"] == JString(note.id)
    ensures d.metadata["title"] == JString(note.title)
    ensures d.metadata["userId"] == JString(note.userId)
  {
    var content := note.title + "\n" + note.body;
    assert content[..|note.title|] == note.title;
    assert content[|note.title| + 1..] == note.body;
    Document(content, map["id" := JString(note.id), "title" := JString(note.title),
                           "userId" := JString(note.userId)])
  }

  /** Metadata as `CreateDocument` writes it: string id, title and owner. */
  predicate IsNoteMetadata(md: Metadata)
  {
    && "id" in md && md["id"].JString?
    && "title" in md && md["title"].JString?
    && "userId" in md && md["userId"].JString?
  }

  /** Every record carries note metadata. */
  predicate AllNoteMetadata(records: seq<Document>)
  {
    forall d :: d in records ==> IsNoteMetadata(d.metadata)
  }

  /** The chunks of one document: each chunk text the splitter produces, with
      the document's own metadata. */
  function ChunksOf(d: Document, split: string -> seq<string>): (cs: seq<Document>)
    ensures |cs| == |split(d.pageContent)|
    ensures forall i :: 0 <= i < |cs| ==>
              cs[i].pageContent == split(d.pageContent)[i] && cs[i].metadata == d.metadata
  {
    var texts := split(d.pageContent);
    seq(|texts|, i requires 0 <= i < |texts| => Document(texts[i], d.metadata))
  }

  /** `splitDocuments`: the chunks of every document, document after document. */
  function SplitDocuments(docs: seq<Document>, split: string -> seq<string>): (cs: seq<Document>)
    // every chunk is a piece of some document, with that document's metadata
    ensures forall c :: c in cs ==>
              exists d :: d in docs && c.metadata == d.metadata && c.pageContent in split(d.pageContent)
    // every piece of every document is a chunk
    ensures forall d, t :: d in docs && t in split(d.pageContent) ==> Document(t, d.metadata) in cs
  {
    if docs == [] then []
    else
      var first := ChunksOf(docs[0], split);
      assert forall c :: c in first ==> c.metadata == docs[0].metadata && c.pageContent in split(docs[0].pageContent);
      assert forall t :: t in split(docs[0].pageContent) ==> Document(t, docs[0].metadata) in first by {
        forall t | t in split(docs[0].pageContent)
          ensures Document(t, docs[0].metadata) in first
        {
          var i :| 0 <= i < |split(docs[0].pageContent)| && split(docs[0].pageContent)[i] == t;
          assert first[i] == Document(t, docs[0].metadata);
        }
      }
      first + SplitDocuments(docs[1..], split)
  }

  /** Splitting one document gives exactly its chunks. */
  lemma SplitOneDocument(d: Document, split: string -> seq<string>)
    ensures SplitDocuments([d], split) == ChunksOf(d, split)
  {
    assert [d][1..] == [];
  }

  /** Splitting distributes over concatenation: the chunks come document after
      document, in the documents' order. */
  lemma {:induction false} SplitDocumentsDistributes(a: seq<Document>, b: seq<Document>, split: string -> seq<string>)
    ensures SplitDocuments(a + b, split) == SplitDocuments(a, split) + SplitDocuments(b, split)
  {
    if a == [] {
      assert a + b == b;
    } else {
      assert (a + b)[0] == a[0];
      assert (a + b)[1..] == a[1..] + b;
      SplitDocumentsDistributes(a[1..], b, split);
    }
  }

  /** `notes.map(createDocument)`. */
  function CreateDocuments(notes: seq<Note>): (ds: seq<Document>)
    ensures |ds| == |notes|
    ensures forall i :: 0 <= i < |notes| ==> ds[i] == CreateDocument(notes[i])
  {
    if notes == [] then [] else [CreateDocument(notes[0])] + CreateDocuments(notes[1..])
  }

  /** `notes.map(createDocument)` distributes over concatenation. */
  lemma {:induction false} CreateDocumentsDistributes(a: seq<Note>, b: seq<Note>)
    ensures CreateDocuments(a + b) == CreateDocuments(a) + CreateDocuments(b)
  {
    if a == [] {
      assert a + b == b;
    } else {
      assert (a + b)[1..] == a[1..] + b;
      CreateDocumentsDistributes(a[1..], b);
    }
  }

  /** Chunks of note documents carry note metadata. */
  lemma SplitNotesHaveNoteMetadata(notes: seq<Note>, split: string -> seq<string>)
    ensures AllNoteMetadata(SplitDocuments(CreateDocuments(notes), split))
  {
    var ds := CreateDocuments(notes);
    assert AllNoteMetadata(ds) by {
      forall d | d in ds
        ensures IsNoteMetadata(d.metadata)
      {
        var i :| 0 <= i < |ds| && ds[i] == d;
        assert d == CreateDocument(notes[i]);
      }
    }
    forall c | c in SplitDocuments(ds, split)
      ensures IsNoteMetadata(c.metadata)
    {
      var d :| d in ds && c.metadata == d.metadata && c.pageContent in split(d.pageContent);
    }
  }

  // ---------------------------------------------------------------------------
  // Adding and removing
  // ---------------------------------------------------------------------------

  /** `doc.metadata.id === id`. */
  predicate HasNoteId(md: Metadata, id: string)
    ensures HasNoteId(md, id) <==> "id" in md && md["id"] == JString(id)
  {
    Field(md, "id") == Some(JString(id))
  }

  /** The store after `addDocument(note)`: the note's chunks are appended. */
  function AppendNote(records: seq<Document>, note: Note, split: string -> seq<string>): (r: seq<Document>)
    ensures |r| >= |records| && r[..|records|] == records
    ensures forall d :: d in r[|records|..] ==> d.metadata == CreateDocument(note).metadata
  {
    var d := CreateDocument(note);
    SplitOneDocument(d, split);
    records + SplitDocuments([d], split)
  }

  /** Adding only appends: every earlier record, older chunks of the same note
      included, stays where it was, and every new record is a chunk of the
      note's text carrying exactly the note's metadata. */
  lemma AddDocumentAppends(records: seq<Document>, note: Note, split: string -> seq<string>)
    ensures var r := AppendNote(records, note, split);
      && |r| == |records| + |split(note.title + "\n" + note.body)|
      && r[..|records|] == records
      && forall i :: |records| <= i < |r| ==>
           r[i].metadata == CreateDocument(note).metadata
           && r[i].pageContent == split(note.title + "\n" + note.body)[i - |records|]
  {
    var d := CreateDocument(note);
    SplitOneDocument(d, split);
  }

  /** Adding a note to the store built from a corpus gives the store built from
      that corpus with the note at its end. */
  lemma AddingExtendsCorpus(notes: seq<Note>, note: Note, split: string -> seq<string>)
    ensures AppendNote(SplitDocuments(CreateDocuments(notes), split), note, split)
            == SplitDocuments(CreateDocuments(notes + [note]), split)
  {
    CreateDocumentsDistributes(notes, [note]);
    assert CreateDocuments([note]) == [CreateDocument(note)];
    SplitDocumentsDistributes(CreateDocuments(notes), [CreateDocument(note)], split);
  }

  /** `memoryVectors.filter(doc => doc.metadata.id !== id)`. */
  function RemoveById(records: seq<Document>, id: string): (r: seq<Document>)
    ensures |r| <= |records|
    ensures forall d :: d in r <==> d in records && !HasNoteId(d.metadata, id)
  {
    if records == [] then []
    else if HasNoteId(records[0].metadata, id) then RemoveById(records[1..], id)
    else [records[0]] + RemoveById(records[1..], id)
  }

  /** Removing distributes over concatenation, so the records that stay keep
      their relative order. */
  lemma {:induction false} RemoveByIdDistributes(a: seq<Document>, b: seq<Document>, id: string)
    ensures RemoveById(a + b, id) == RemoveById(a, id) + RemoveById(b, id)
  {
    if a != [] {
      assert (a + b)[1..] == a[1..] + b;
      RemoveByIdDistributes(a[1..], b, id);
    } else {
      assert a + b == b;
    }
  }

  /** Removing an id that no record carries changes nothing and fails on nothing. */
  lemma {:induction false} RemoveAbsentIsNoop(records: seq<Document>, id: string)
    requires forall d :: d in records ==> !HasNoteId(d.metadata, id)
    ensures RemoveById(records, id) == records
  {
    if records != [] {
      assert records[0] in records;
      RemoveAbsentIsNoop(records[1..], id);
      assert records == [records[0]] + records[1..];
    }
  }

  /** Removing the id every record carries empties the list. */
  lemma {:induction false} RemoveAllMatching(records: seq<Document>, id: string)
    requires forall d :: d in records ==> HasNoteId(d.metadata, id)
    ensures RemoveById(records, id) == []
  {
    if records != [] {
      RemoveAllMatching(records[1..], id);
    }
  }

  /** A second `removeDocument(id)` leaves the store as the first left it. */
  lemma {:induction false} RemoveIsIdempotent(records: seq<Document>, id: string)
    ensures RemoveById(RemoveById(records, id), id) == RemoveById(records, id)
  {
    RemoveAbsentIsNoop(RemoveById(records, id), id);
  }

  /** Removal matches on the note id alone: every record of that note goes,
      whoever its owner is, and the owner's other notes stay. */
  lemma RemoveIgnoresOwner(records: seq<Document>, id: string, userId: string)
    ensures forall d :: d in records && HasNoteId(d.metadata, id) && IsOwnedBy(d.metadata, userId)
              ==> d !in RemoveById(records, id)
    ensures forall d :: d in records && !HasNoteId(d.metadata, id) && IsOwnedBy(d.metadata, userId)
              ==> d in RemoveById(records, id)
  {
  }

  /** Adding a note and then removing it by id removes exactly the removal of
      what was there before: none of the new chunks survive. */
  lemma AddThenRemove(records: seq<Document>, note: Note, split: string -> seq<string>)
    ensures RemoveById(AppendNote(records, note, split), note.id) == RemoveById(records, note.id)
  {
    var d := CreateDocument(note);
    var added := SplitDocuments([d], split);
    SplitOneDocument(d, split);
    RemoveByIdDistributes(records, added, note.id);
    RemoveAllMatching(added, note.id);
  }

  // ---------------------------------------------------------------------------
  // Searching
  // ---------------------------------------------------------------------------

  /** The search filter: `typeof doc.metadata.userId === "string" &&
      doc.metadata.userId === userId`. */
  predicate IsOwnedBy(md: Metadata, userId: string)
    ensures IsOwnedBy(md, userId) <==> "userId" in md && md["userId"] == JString(userId)
  {
    var owner := Field(md, "userId");
    owner.Some? && owner.value.JString? && owner.value == JString(userId)
  }

  /** A note's own records pass the filter for its owner and no other. */
  lemma NoteDocumentOwnership(note: Note, userId: string)
    ensures IsOwnedBy(CreateDocument(note).metadata, userId) <==> note.userId == userId
    ensures HasNoteId(CreateDocument(note).metadata, note.id)
  {
  }

  /** The records that pass the owner filter, in store order. */
  function OwnedRecords(records: seq<Document>, userId: string): (r: seq<Document>)
    ensures |r| <= |records|
    ensures forall d :: d in r <==> d in records && IsOwnedBy(d.metadata, userId)
  {
    if records == [] then []
    else if IsOwnedBy(records[0].metadata, userId) then [records[0]] + OwnedRecords(records[1..], userId)
    else OwnedRecords(records[1..], userId)
  }

  /** Candidates ordered by descending similarity to the question. */
  ghost predicate RankedBy(s: seq<Document>, question: string, similarity: (string, string) -> real)
  {
    forall i, j :: 0 <= i < j < |s| ==>
      similarity(question, s[i].pageContent) >= similarity(question, s[j].pageContent)
  }

  lemma RankedCons(x: Document, rest: seq<Document>, question: string,
                   similarity: (string, string) -> real)
    requires RankedBy(rest, question, similarity)
    requires forall y :: y in rest ==> similarity(question, y.pageContent) <= similarity(question, x.pageContent)
    ensures RankedBy([x] + rest, question, similarity)
  {
    var r := [x] + rest;
    forall i, j | 0 <= i < j < |r|
      ensures similarity(question, r[i].pageContent) >= similarity(question, r[j].pageContent)
    {
      assert r[j] == rest[j - 1];
      if i > 0 {
        assert r[i] == rest[i - 1];
      }
    }
  }

  /** Places `d` before the first record that scores no better. */
  function InsertRanked(d: Document, s: seq<Document>, question: string,
                        similarity: (string, string) -> real): (r: seq<Document>)
    ensures multiset(r) == multiset(s) + multiset{d}
  {
    if s == [] || similarity(question, d.pageContent) >= similarity(question, s[0].pageContent) then
      [d] + s
    else
      assert s == [s[0]] + s[1..];
      [s[0]] + InsertRanked(d, s[1..], question, similarity)
  }

  lemma {:induction false} InsertRankedKeepsRanking(d: Document, s: seq<Document>, question: string,
                                                     similarity: (string, string) -> real)
    requires RankedBy(s, question, similarity)
    ensures RankedBy(InsertRanked(d, s, question, similarity), question, similarity)
  {
    if s == [] {
    } else if similarity(question, d.pageContent) >= similarity(question, s[0].pageContent) {
      forall y | y in s
        ensures similarity(question, y.pageContent) <= similarity(question, d.pageContent)
      {
        var j :| 0 <= j < |s| && s[j] == y;
      }
      RankedCons(d, s, question, similarity);
    } else {
      assert s == [s[0]] + s[1..];
      var rest := InsertRanked(d, s[1..], question, similarity);
      InsertRankedKeepsRanking(d, s[1..], question, similarity);
      var top := similarity(question, s[0].pageContent);
      forall x | x in rest
        ensures similarity(question, x.pageContent) <= top
      {
        assert x in multiset(rest);
        if x != d {
          assert x in multiset(s[1..]);
          var j :| 0 <= j < |s[1..]| && s[1..][j] == x;
          assert s[j + 1] == x;
        }
      }
      RankedCons(s[0], rest, question, similarity);
    }
  }

  /** The similarity ranking: candidates from best to worst score, earlier
      records first among equal scores. */
  function Rank(cands: seq<Document>, question: string, similarity: (string, string) -> real): (r: seq<Document>)
    ensures multiset(r) == multiset(cands)
  {
    if cands == [] then []
    else
      assert cands == [cands[0]] + cands[1..];
      InsertRanked(cands[0], Rank(cands[1..], question, similarity), question, similarity)
  }

  /** Ranking orders the candidates by descending score. */
  lemma {:induction false} RankIsRanked(cands: seq<Document>, question: string,
                                        similarity: (string, string) -> real)
    ensures RankedBy(Rank(cands, question, similarity), question, similarity)
  {
    if cands != [] {
      assert cands == [cands[0]] + cands[1..];
      RankIsRanked(cands[1..], question, similarity);
      InsertRankedKeepsRanking(cands[0], Rank(cands[1..], question, similarity), question, similarity);
    }
  }

  /** `similaritySearch(question, k, ownerFilter)`: the first `k` records of the
      ranking of those the owner filter admits. */
  function SimilaritySearch(records: seq<Document>, question: string, k: nat, userId: string,
                            similarity: (string, string) -> real): (hits: seq<Document>)
    ensures |hits| == if k < |OwnedRecords(records, userId)| then k else |OwnedRecords(records, userId)|
    ensures forall h :: h in hits ==> h in records && IsOwnedBy(h.metadata, userId)
    ensures RankedBy(hits, question, similarity)
    // no record is returned twice, or more often than the store holds it
    ensures multiset(hits) <= multiset(OwnedRecords(records, userId))
  {
    var owned := OwnedRecords(records, userId);
    var ranked := Rank(owned, question, similarity);
    RankIsRanked(owned, question, similarity);
    var n := if k < |owned| then k else |owned|;
    TakeRanked(owned, ranked, n, question, similarity);
    ranked[..n]
  }

  /** The first `n` of a ranking of `owned` are a ranked selection of `owned`. */
  lemma TakeRanked(owned: seq<Document>, ranked: seq<Document>, n: nat, question: string,
                   similarity: (string, string) -> real)
    requires multiset(ranked) == multiset(owned) && RankedBy(ranked, question, similarity)
    requires n <= |owned|
    ensures |ranked| == |owned| && |ranked[..n]| == n
    ensures multiset(ranked[..n]) <= multiset(owned)
    ensures forall h :: h in ranked[..n] ==> h in owned
    ensures RankedBy(ranked[..n], question, similarity)
  {
    assert |ranked| == |multiset(ranked)| == |owned|;
    assert ranked == ranked[..n] + ranked[n..];
    assert multiset(ranked) == multiset(ranked[..n]) + multiset(ranked[n..]);
    forall h | h in ranked[..n]
      ensures h in owned
    {
      assert h in multiset(owned);
    }
  }

  /** A search never returns a record of a note that has been removed. */
  lemma SearchAfterRemove(records: seq<Document>, id: string, question: string, k: nat, userId: string,
                          similarity: (string, string) -> real)
    ensures forall h :: h in SimilaritySearch(RemoveById(records, id), question, k, userId, similarity)
              ==> !HasNoteId(h.metadata, id)
  {
  }

  // ---------------------------------------------------------------------------
  // Chat events
  // ---------------------------------------------------------------------------

  /** `ChatResponse`: every variant carries the owner of the request. */
  datatype ChatResponse =
    | Token(text: string, userId: string)
    | Start(userId: string)
    | End(userId: string)
    | Error(error: string, userId: string)

  /** What the language model's error callback receives. */
  datatype Thrown =
    | ThrownString(s: string)
    | ThrownError(message: string)
    | ThrownOther

  /** One callback of the streaming generation, in the order the model fires them. */
  datatype LlmCallback =
    | LlmStart
    | LlmNewToken(text: string)
    | LlmEnd
    | LlmError(e: Thrown)

  const FallbackError: string := "An error occurred please try again."

  /** The error text published for a failed generation: never empty unless the
      model itself threw an empty text. */
  function ErrorMessage(e: Thrown): (m: string)
    ensures e.ThrownString? ==> m == e.s
    ensures e.ThrownError? ==> m == e.message
    ensures e.ThrownOther? ==> m == "An error occurred please try again."
    ensures m == "" ==> e == ThrownString("") || e == ThrownError("")
  {
    match e
    case ThrownString(s) => s
    case ThrownError(m) => m
    case ThrownOther => FallbackError
  }

  /** The event a handler publishes for one callback, tagged with the owner. */
  function CallbackEvent(cb: LlmCallback, userId: string): (e: ChatResponse)
    ensures e.userId == userId
  {
    match cb
    case LlmNewToken(text) => Token(text, userId)
    case LlmError(thrown) => Error(ErrorMessage(thrown), userId)
    case LlmStart => Start(userId)
    case LlmEnd => End(userId)
  }

  /** Each callback becomes the event of its own kind; an error event carries the
      thrown string, the `Error`'s message, or the fixed fallback text. */
  lemma CallbackEventKinds(cb: LlmCallback, userId: string)
    ensures cb.LlmStart? <==> CallbackEvent(cb, userId) == Start(userId)
    ensures cb.LlmEnd? <==> CallbackEvent(cb, userId) == End(userId)
    ensures cb.LlmNewToken? <==> CallbackEvent(cb, userId).Token?
    ensures cb.LlmNewToken? ==> CallbackEvent(cb, userId) == Token(cb.text, userId)
    ensures cb == LlmError(ThrownOther) ==> CallbackEvent(cb, userId) == Error("An error occurred please try again.", userId)
    ensures forall s :: cb == LlmError(ThrownString(s)) ==> CallbackEvent(cb, userId) == Error(s, userId)
    ensures forall m :: cb == LlmError(ThrownError(m)) ==> CallbackEvent(cb, userId) == Error(m, userId)
  {
  }

  /** The events one generation publishes, in callback order. */
  function Events(trace: seq<LlmCallback>, userId: string): (es: seq<ChatResponse>)
    ensures |es| == |trace|
    ensures forall i :: 0 <= i < |trace| ==> es[i] == CallbackEvent(trace[i], userId)
  {
    seq(|trace|, i requires 0 <= i < |trace| => CallbackEvent(trace[i], userId))
  }

  /** Every event a request publishes carries the requester's id. */
  lemma EventsCarryRequester(trace: seq<LlmCallback>, userId: string)
    ensures forall e :: e in Events(trace, userId) ==> e.userId == userId
  {
  }

  // ---------------------------------------------------------------------------
  // The store and the event subject
  // ---------------------------------------------------------------------------

  /** The in-memory vector store: its list of records, reassigned by removal. */
  class VectorStore {
    const split: string -> seq<string>
    var memoryVectors: seq<Document>

    /** Every record carries the metadata `CreateDocument` writes. */
    ghost predicate Valid()
      reads this
    {
      AllNoteMetadata(memoryVectors)
    }

    /** `createVectorStore`: index every note of the corpus. */
    constructor FromNotes(notes: seq<Note>, split: string -> seq<string>)
      ensures this.split == split
      ensures memoryVectors == SplitDocuments(CreateDocuments(notes), split)
      ensures Valid()
    {
      this.split := split;
      memoryVectors := SplitDocuments(CreateDocuments(notes), split);
      SplitNotesHaveNoteMetadata(notes, split);
    }

    /** `addDocument(note)`. `embeddingFails` stands for the embedding call
        rejecting, in which case nothing is appended. */
    method AddDocument(note: Note, embeddingFails: bool)
      requires Valid()
      modifies this
      ensures Valid()
      ensures embeddingFails ==> memoryVectors == old(memoryVectors)
      ensures !embeddingFails ==> memoryVectors == AppendNote(old(memoryVectors), note, split)
    {
      if embeddingFails {
        return;
      }
      SplitNotesHaveNoteMetadata([note], split);
      assert CreateDocuments([note]) == [CreateDocument(note)];
      memoryVectors := memoryVectors + SplitDocuments([CreateDocument(note)], split);
    }

    /** `removeDocument(id)`. */
    method RemoveDocument(id: string)
      requires Valid()
      modifies this
      ensures Valid()
      ensures memoryVectors == RemoveById(old(memoryVectors), id)
    {
      memoryVectors := RemoveById(memoryVectors, id);
    }
  }

  /** The `chat$` subject, seen as the history of every event pushed onto it. */
  class ChatBus {
    var published: seq<ChatResponse>

    constructor()
      ensures published == []
    {
      published := [];
    }

    /** `chat$.next(e)`. */
    method Next(e: ChatResponse)
      modifies this
      ensures published == old(published) + [e]
    {
      published := published + [e];
    }
  }

  /** A callback handler: publish the callback's event for the requester. */
  method HandleCallback(bus: ChatBus, cb: LlmCallback, userId: string)
    modifies bus
    ensures bus.published == old(bus.published) + [CallbackEvent(cb, userId)]
  {
    bus.Next(CallbackEvent(cb, userId));
  }

  /** `askQuestion`: search the requester's records, then publish one event per
      generation callback. The returned sources do not depend on the
      generation: `trace` stands for the callbacks the model fires.
      `embeddingFails` stands for the question's embedding call rejecting: the
      promise then rejects (`None`) before any event is published. */
  method AskQuestion(store: VectorStore, bus: ChatBus, question: string, userId: string,
                     similarity: (string, string) -> real, trace: seq<LlmCallback>, embeddingFails: bool)
    returns (sources: Option<seq<Document>>)
    modifies bus
    ensures embeddingFails ==> sources.None? && bus.published == old(bus.published)
    ensures !embeddingFails ==>
              && sources == Some(SimilaritySearch(store.memoryVectors, question, 5, userId, similarity))
              && bus.published == old(bus.published) + Events(trace, userId)
  {
    if embeddingFails {
      return None;
    }
    sources := Some(SimilaritySearch(store.memoryVectors, question, 5, userId, similarity));
    var i := 0;
    while i < |trace|
      invariant 0 <= i <= |trace|
      invariant bus.published == old(bus.published) + Events(trace[..i], userId)
    {
      HandleCallback(bus, trace[i], userId);
      assert Events(trace[..i + 1], userId) == Events(trace[..i], userId) + [CallbackEvent(trace[i], userId)];
      i := i + 1;
    }
    assert trace[..i] == trace;
  }
}
