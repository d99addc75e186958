/** `RAGPipeline.query`: turns the store's search results, the chat history
    and the outcome of the generation call into `{answer, sources,
    confidence}`. The generation call is an input: `generate` maps the
    system and user prompts to the generated text or to the error message
    it raised. */
module Pipeline {
  import opened Records
  import opened Text

  /** A chat-history entry; either key may be missing. */
  datatype Message = Message(role: Option<string>, content: Option<string>)

  /** One entry of `sources`. */
  datatype Citation = Citation(source: string, chunkId: int, confidence: real, preview: string)

  /** The dictionary `query` returns. */
  datatype Response = Response(answer: string, sources: seq<Citation>, confidence: real)

  /** What the generation call did: returned text, or raised with a message. */
  datatype Generation = Generated(text: string) | Failed(message: string)

  /** Results requested from the store per question. */
  const SearchK: nat := 5
  /** Characters of chunk content kept in a citation preview. */
  const PreviewLength: nat := 200
  /** History messages that may enter the prompt. */
  const HistoryWindow: nat := 4

  const NoResultsAnswer: string :=
    "I couldn't find any relevant information in the uploaded documents to answer your question. "
    + "Could you try rephrasing your question or upload more documents?"

  const AllDeletedAnswer: string :=
    "I found some documents, but they seem to have been deleted. Please upload some documents first!"

  const GenerationErrorPrefix: string :=
    "I found relevant documents but encountered an error while generating the response: "

  // ----- filtering soft-deleted results -----

  /** `not doc["metadata"].get("deleted", False)`. */
  predicate IsLive(r: ScoredChunk)
  {
    !r.chunk.metadata.deleted
  }

  /** The comprehension that keeps the live results, in order. */
  function FilterLive(results: seq<ScoredChunk>): (r: seq<ScoredChunk>)
    ensures |r| <= |results|
    ensures forall x :: x in r ==> x in results && IsLive(x)
    ensures forall x :: x in results && IsLive(x) ==> x in r
  {
    if results == [] then []
    else (if IsLive(results[0]) then [results[0]] else []) + FilterLive(results[1..])
  }

  /** Filtering works piecewise, so it keeps the search order. */
  lemma {:induction false} FilterLiveDistributes(a: seq<ScoredChunk>, b: seq<ScoredChunk>)
    ensures FilterLive(a + b) == FilterLive(a) + FilterLive(b)
  {
    if a == [] {
      assert a + b == b;
    } else {
      var head := if IsLive(a[0]) then [a[0]] else [];
      assert (a + b)[0] == a[0];
      assert (a + b)[1..] == a[1..] + b;
      FilterLiveDistributes(a[1..], b);
      calc {
        FilterLive(a + b);
        head + FilterLive(a[1..] + b);
        head + (FilterLive(a[1..]) + FilterLive(b));
        (head + FilterLive(a[1..])) + FilterLive(b);
        FilterLive(a) + FilterLive(b);
      }
    }
  }

  /** With nothing deleted, the filter keeps every result. */
  lemma {:induction false} FilterLiveAllLive(results: seq<ScoredChunk>)
    requires forall x :: x in results ==> IsLive(x)
    ensures FilterLive(results) == results
  {
    if results != [] {
      assert results[0] in results;
      FilterLiveAllLive(results[1..]);
    }
  }

  /** Nothing survives exactly when every result is deleted. */
  lemma FilterLiveEmptyIff(results: seq<ScoredChunk>)
    ensures FilterLive(results) == [] <==> forall x :: x in results ==> !IsLive(x)
  {
    if FilterLive(results) != [] {
      assert FilterLive(results)[0] in FilterLive(results);
    }
  }

  // ----- citations -----

  /** `content[:200] + "..."` when longer than 200 characters, else `content`. */
  function Preview(content: string): (p: string)
    ensures |p| <= PreviewLength + 3
    ensures |content| <= PreviewLength ==> p == content
    ensures |content| > PreviewLength ==>
      |p| == PreviewLength + 3 && p[..PreviewLength] == content[..PreviewLength] && p[PreviewLength..] == "..."
  {
    if |content| > PreviewLength then content[..PreviewLength] + "..." else content
  }

  /** The `sources` entry for one result. */
  function Cite(x: ScoredChunk): Citation
  {
    Citation(x.chunk.metadata.source, x.chunk.metadata.chunkId, x.score, Preview(x.chunk.content))
  }

  function Citations(valid: seq<ScoredChunk>): seq<Citation>
  {
    seq(|valid|, i requires 0 <= i < |valid| => Cite(valid[i]))
  }

  /** `sources` holds one entry per surviving result, in search order, with
      source, chunk id and score copied and the content previewed; no
      deleted chunk is cited. */
  lemma CitationsFollowSurvivors(results: seq<ScoredChunk>)
    ensures var v := FilterLive(results); var c := Citations(v);
      && |c| == |v|
      && forall i :: 0 <= i < |v| ==>
           && v[i] in results && IsLive(v[i])
           && c[i].source == v[i].chunk.metadata.source
           && c[i].chunkId == v[i].chunk.metadata.chunkId
           && c[i].confidence == v[i].score
           && c[i].preview == Preview(v[i].chunk.content)
  {
    var v := FilterLive(results);
    forall i | 0 <= i < |v|
      ensures v[i] in results && IsLive(v[i])
    {
      assert v[i] in v;
    }
  }

  // ----- document context -----

  /** `f"[Source {i+1}: {source}]\n{content}"`. */
  function ContextEntry(i: nat, c: Chunk): string
  {
    "[Source " + NatToString(i + 1) + ": " + c.metadata.source + "]\n" + c.content
  }

  function ContextEntries(valid: seq<ScoredChunk>): seq<string>
  {
    seq(|valid|, i requires 0 <= i < |valid| => ContextEntry(i, valid[i].chunk))
  }

  /** `"\n\n" + "=" * 50 + "\n\n".join(context_parts)`: by operator
      precedence the separator line runs straight into the first entry. */
  function ContextBlock(valid: seq<ScoredChunk>): string
  {
    "\n\n" + Repeat('=', 50) + Join(ContextEntries(valid), "\n\n")
  }

  /** The block opens with two newlines and fifty `=`, immediately followed
      by the first entry, labelled as source 1. */
  lemma ContextBlockLayout(valid: seq<ScoredChunk>)
    requires valid != []
    ensures var b := ContextBlock(valid);
      && |b| >= 52 + |ContextEntry(0, valid[0].chunk)|
      && b[..52] == "\n\n" + Repeat('=', 50)
      && b[52..52 + |ContextEntry(0, valid[0].chunk)|] == ContextEntry(0, valid[0].chunk)
  {
    var es := ContextEntries(valid);
    var j := Join(es, "\n\n");
    JoinStartsWithFirst(es, "\n\n");
    var b := ContextBlock(valid);
    assert b == ("\n\n" + Repeat('=', 50)) + j;
    assert b[52..] == j;
  }

  /** Different entries carry different source labels. */
  lemma SourceLabelsDistinct(i: nat, j: nat)
    requires i != j
    ensures NatToString(i + 1) != NatToString(j + 1)
  {
    if NatToString(i + 1) == NatToString(j + 1) {
      NatToStringInjective(i + 1, j + 1);
    }
  }

  // ----- chat history -----

  /** `msg.get("role", "user")`. */
  function RoleOf(m: Message): string
  {
    match m.role
    case Some(r) => r
    case None => "user"
  }

  /** `msg.get("content", "")`. */
  function ContentOf(m: Message): string
  {
    match m.content
    case Some(c) => c
    case None => ""
  }

  /** `f"{role.title()}: {content}"`. */
  function HistoryLine(m: Message): string
  {
    Title(RoleOf(m)) + ": " + ContentOf(m)
  }

  /** `chat_history[-4:]`. */
  function Recent(history: seq<Message>): seq<Message>
  {
    if |history| <= HistoryWindow then history else history[|history| - HistoryWindow..]
  }

  function HistoryLines(recent: seq<Message>): seq<string>
  {
    seq(|recent|, i requires 0 <= i < |recent| => HistoryLine(recent[i]))
  }

  /** `history_context`: empty without history, otherwise the heading and
      the recent messages one per line. A missing history (`None`) is the
      empty sequence: both are falsy. */
  function HistoryContext(history: seq<Message>): string
  {
    if history == [] then ""
    else
      var parts := HistoryLines(Recent(history));
      if parts == [] then "" else "\n\nPrevious conversation:\n" + Join(parts, "\n")
  }

  /** Only the last four messages matter: anything older is dropped. */
  lemma OnlyLastFourMessagesCount(older: seq<Message>, recent: seq<Message>)
    requires |recent| >= HistoryWindow
    ensures HistoryContext(older + recent) == HistoryContext(recent)
  {
    var h := older + recent;
    assert Recent(h) == Recent(recent) by {
      assert h[|h| - HistoryWindow..] == recent[|recent| - HistoryWindow..];
    }
    assert h != [] && recent != [];
  }

  /** With one to four messages, all of them are used, one line each,
      oldest first. */
  lemma ShortHistoryUsedWhole(history: seq<Message>)
    requires 0 < |history| <= HistoryWindow
    ensures HistoryContext(history) == "\n\nPrevious conversation:\n" + Join(HistoryLines(history), "\n")
  {
  }

  /** A message with neither key reads as an empty message from the user. */
  lemma MissingKeysDefault()
    ensures HistoryLine(Message(None, None)) == "User: "
  {
    TitleOfLowerWord("user");
  }

  /** The history block is non-blank, hence shown in the prompt, exactly
      when there is some history. */
  lemma HistoryShownIffPresent(history: seq<Message>)
    ensures !IsBlank(HistoryContext(history)) <==> history != []
  {
    if history != [] {
      var h := HistoryContext(history);
      assert h[2] == 'P';
    }
  }

  // ----- prompts -----

  /** The six duties `_create_system_prompt` lists, in order. */
  const SystemPromptDuties: seq<string> := [
    "Read through the provided context carefully",
    "Answer the user's question using ONLY information from the context",
    "Be accurate and comprehensive",
    "If the context doesn't contain enough information, say so honestly",
    "Synthesize information from multiple sources when relevant",
    "Maintain a helpful and professional tone"
  ]

  /** The four rules `_create_system_prompt` lists, in order. */
  const SystemPromptRules: seq<string> := [
    "NEVER make up information that's not in the context",
    "If you're unsure, say \"Based on the provided documents...\"",
    "If the context is insufficient, suggest what additional information might be needed",
    "Always be honest about the limitations of your knowledge based on the provided context"
  ]

  /** Items numbered from 1, as `1. item`. */
  function Numbered(items: seq<string>): seq<string>
  {
    seq(|items|, i requires 0 <= i < |items| => NatToString(i + 1) + ". " + items[i])
  }

  /** Items led by a dash, as `- item`. */
  function Dashed(items: seq<string>): seq<string>
  {
    seq(|items|, i requires 0 <= i < |items| => "- " + items[i])
  }

  const SystemPromptLines: seq<string> :=
    ["You are a helpful AI assistant that answers questions based ONLY on the provided document context.",
     "", "Your job is to:"]
    + Numbered(SystemPromptDuties)
    + ["", "Important rules:"]
    + Dashed(SystemPromptRules)

  /** `_create_system_prompt()`: the same text for every query. */
  const SystemPrompt: string := Join(SystemPromptLines, "\n")

  /** The system prompt is fifteen lines: the role, a blank line, the
      heading `Your job is to:`, the duties numbered 1 to 6 in order, a blank
      line, the heading `Important rules:` and the four rules as dashed
      items; its first line is the role. */
  lemma SystemPromptLayout()
    ensures |SystemPromptLines| == 15
    ensures SystemPromptLines[1] == "" && SystemPromptLines[2] == "Your job is to:"
    ensures forall i :: 0 <= i < 6 ==>
      SystemPromptLines[3 + i] == NatToString(i + 1) + ". " + SystemPromptDuties[i]
    ensures SystemPromptLines[9] == "" && SystemPromptLines[10] == "Important rules:"
    ensures forall j :: 0 <= j < 4 ==> SystemPromptLines[11 + j] == "- " + SystemPromptRules[j]
    ensures |SystemPrompt| >= |SystemPromptLines[0]| && SystemPrompt[..|SystemPromptLines[0]|] == SystemPromptLines[0]
  {
    JoinStartsWithFirst(SystemPromptLines, "\n");
  }

  const PromptOpening: string :=
    "Please answer the following question based on the document context provided below."

  const HistoryIntro: string :=
    "\nFor additional context, here's our recent conversation:"

  const PromptClosing: string :=
    "\nPlease provide a helpful and accurate answer based on the context above. "
    + "If you reference specific information, it should come from the provided "
    + "sources."

  /** `prompt_parts` of `_create_user_prompt`. */
  function UserPromptParts(question: string, context: string, historyContext: string): seq<string>
  {
    [PromptOpening]
    + (if !IsBlank(historyContext) then [HistoryIntro + historyContext] else [])
    + ["\nDocument context:" + context, "\nQuestion: " + question, PromptClosing]
  }

  /** `_create_user_prompt`: the parts joined by newlines. */
  function UserPrompt(question: string, context: string, historyContext: string): string
  {
    Join(UserPromptParts(question, context, historyContext), "\n")
  }

  /** The user prompt reads: opening instruction, the history block only when
      it is non-blank, the document context, the question, the closing
      instruction (each part after the first starts on a fresh line and
      itself begins with a newline). */
  lemma UserPromptLayout(question: string, context: string, historyContext: string)
    ensures UserPrompt(question, context, historyContext) ==
      PromptOpening
      + (if !IsBlank(historyContext) then "\n" + (HistoryIntro + historyContext) else "")
      + "\n" + ("\nDocument context:" + context)
      + "\n" + ("\nQuestion: " + question)
      + "\n" + PromptClosing
  {
    PartsLayout(PromptOpening, HistoryIntro + historyContext, !IsBlank(historyContext),
      "\nDocument context:" + context, "\nQuestion: " + question, PromptClosing);
  }

  lemma PartsLayout(opening: string, hist: string, show: bool, d: string, q: string, closing: string)
    ensures Join([opening] + (if show then [hist] else []) + [d, q, closing], "\n") ==
      opening + (if show then "\n" + hist else "") + "\n" + d + "\n" + q + "\n" + closing
  {
    if show {
      assert [opening] + [hist] + [d, q, closing] == [opening, hist, d, q, closing];
      JoinFive(opening, hist, d, q, closing, "\n");
    } else {
      assert [opening] + [] + [d, q, closing] == [opening, d, q, closing];
      JoinFour(opening, d, q, closing, "\n");
    }
  }

  // ----- confidence -----

  /** `sum(...)` of a list of scores. */
  function Sum(xs: seq<real>): real
  {
    if xs == [] then 0.0 else xs[0] + Sum(xs[1..])
  }

  /** The arithmetic mean, `sum(xs) / len(xs)`. */
  function Mean(xs: seq<real>): real
    requires xs != []
  {
    Sum(xs) / (|xs| as real)
  }

  function Scores(valid: seq<ScoredChunk>): seq<real>
  {
    seq(|valid|, i requires 0 <= i < |valid| => valid[i].score)
  }

  lemma {:induction false} SumBounds(xs: seq<real>, lo: real, hi: real)
    requires forall i :: 0 <= i < |xs| ==> lo <= xs[i] <= hi
    ensures lo * (|xs| as real) <= Sum(xs) <= hi * (|xs| as real)
  {
    if xs != [] {
      SumBounds(xs[1..], lo, hi);
    }
  }

  /** The mean lies between the smallest and the largest score. */
  lemma MeanWithinBounds(xs: seq<real>, lo: real, hi: real)
    requires xs != []
    requires forall i :: 0 <= i < |xs| ==> lo <= xs[i] <= hi
    ensures lo <= Mean(xs) <= hi
  {
    SumBounds(xs, lo, hi);
    DivisionBounds(Sum(xs), |xs| as real, lo, hi);
  }

  /** Dividing by a positive count keeps bounds scaled by that count. */
  lemma DivisionBounds(total: real, n: real, lo: real, hi: real)
    requires n > 0.0
    requires lo * n <= total <= hi * n
    ensures lo <= total / n <= hi
  {
    var q := total / n;
    assert q * n == total;
    assert (q - lo) * n >= 0.0;
    assert (hi - q) * n >= 0.0;
  }

  /** On success the confidence is the mean of the citations' own scores. */
  lemma CitationScoresAreScores(valid: seq<ScoredChunk>)
    ensures |Citations(valid)| == |Scores(valid)|
    ensures forall i :: 0 <= i < |valid| ==> Citations(valid)[i].confidence == Scores(valid)[i]
  {
  }

  // ----- query -----

  /** The loop of `query` that numbers the survivors: one context entry
      and one citation per survivor, in order. */
  method BuildContext(valid: seq<ScoredChunk>) returns (contextParts: seq<string>, sources: seq<Citation>)
    ensures contextParts == ContextEntries(valid)
    ensures sources == Citations(valid)
  {
    contextParts := [];
    sources := [];
    for i := 0 to |valid|
      invariant |contextParts| == i && |sources| == i
      invariant forall j :: 0 <= j < i ==> contextParts[j] == ContextEntry(j, valid[j].chunk)
      invariant forall j :: 0 <= j < i ==> sources[j] == Cite(valid[j])
    {
      var doc := valid[i].chunk;
      contextParts := contextParts + [ContextEntry(i, doc)];
      sources := sources + [Cite(valid[i])];
    }
  }

  /** The history block of `query`: one line per recent message, under a
      heading, or nothing without history. */
  method BuildHistoryContext(history: seq<Message>) returns (historyContext: string)
    ensures historyContext == HistoryContext(history)
  {
    historyContext := "";
    if history != [] {
      var recent := Recent(history);
      var historyParts: seq<string> := [];
      for i := 0 to |recent|
        invariant |historyParts| == i
        invariant forall j :: 0 <= j < i ==> historyParts[j] == HistoryLine(recent[j])
      {
        historyParts := historyParts + [HistoryLine(recent[i])];
      }
      assert historyParts == HistoryLines(recent);
      if historyParts != [] {
        historyContext := "\n\nPrevious conversation:\n" + Join(historyParts, "\n");
      }
    }
  }

  /** `RAGPipeline.query` on the results of `similarity_search(question, k=5)`. */
  method Query(
    question: string,
    searchResults: seq<ScoredChunk>,
    history: seq<Message>,
    generate: (string, string) -> Generation)
    returns (r: Response)
    ensures searchResults == [] ==> r == Response(NoResultsAnswer, [], 0.0)
    ensures searchResults != [] && FilterLive(searchResults) == [] ==>
              r == Response(AllDeletedAnswer, [], 0.0)
    ensures FilterLive(searchResults) != [] ==> r.sources == Citations(FilterLive(searchResults))
    ensures FilterLive(searchResults) != [] ==>
              var valid := FilterLive(searchResults);
              var prompt := UserPrompt(question, ContextBlock(valid), HistoryContext(history));
              match generate(SystemPrompt, prompt)
              case Generated(text) => r.answer == text && r.confidence == Mean(Scores(valid))
              case Failed(message) => r.answer == GenerationErrorPrefix + message && r.confidence == 0.0
  {
    if searchResults == [] {
      return Response(NoResultsAnswer, [], 0.0);
    }
    var valid := FilterLive(searchResults);
    if valid == [] {
      return Response(AllDeletedAnswer, [], 0.0);
    }

    var contextParts, sources := BuildContext(valid);
    var context := "\n\n" + Repeat('=', 50) + Join(contextParts, "\n\n");
    var historyContext := BuildHistoryContext(history);

    var systemPrompt := SystemPrompt;
    var userPrompt := UserPrompt(question, context, historyContext);
    match generate(systemPrompt, userPrompt)
    case Generated(text) =>
      r := Response(text, sources, Mean(Scores(valid)));
    case Failed(message) =>
      r := Response(GenerationErrorPrefix + message, sources, 0.0);
  }
}
