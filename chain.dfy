/** The query side: the grounding prompt sent to the language model, and the
    projection of retrieved chunks into the context list and the sources text.

    The self-query retriever (a language model translating the question into
    a similarity search with a file-name filter over the vector store) is
    not modelled: its output enters as the list of retrieved documents. */
module Chain {
  import opened Seqs
  import opened Strings

  datatype Option<T> = None | Some(value: T)

  // ---------------------------------------------------------------------
  // The prompt
  // ---------------------------------------------------------------------

  /** The fixed instruction the prompt opens with. */
  const BaseInstruction: string :=
    "I am going to ask you a question, which I would like you to answer"
    + " based only on the provided context, and not any other information."
    + " Break your answer up into nicely readable paragraphs."

  /** The words that introduce the quoted question. */
  const QuestionOpening: string := "The question is '"

  /** The words that introduce the context. */
  const ContextIntro: string := "Here is all the context you have:"

  /** The user part: ` The question is '<query>'. Here is all the context
      you have:` followed by the context joined by single spaces. */
  function UserPart(query: string, context: seq<string>): string
  {
    " " + QuestionOpening + query + "'. " + ContextIntro + Join(' ', context)
  }

  /** `build_prompt`: the instruction, one space, then the user part. The
      result is a fixed head, the literal query and a tail fixed by the
      context. */
  function BuildPrompt(query: string, context: seq<string>): (p: string)
    ensures p == PromptHead() + query + PromptTail(context)
  {
    Regroup(BaseInstruction, QuestionOpening, query, "'. ", ContextIntro, Join(' ', context));
    BaseInstruction + " " + UserPart(query, context)
  }

  /** Everything before the query. */
  function PromptHead(): string
  {
    BaseInstruction + "  " + QuestionOpening
  }

  /** Everything after the query. */
  function PromptTail(context: seq<string>): string
  {
    "'. " + ContextIntro + Join(' ', context)
  }

  /** Recovers the query from a prompt built with `context`, or `None` when
      the prompt does not have that layout. Whatever it accepts is the prompt
      of the query it returns. */
  function ParseQuery(prompt: string, context: seq<string>): (q: Option<string>)
    ensures q.Some? ==> BuildPrompt(q.value, context) == prompt
  {
    var head := PromptHead();
    var tail := PromptTail(context);
    if |head| + |tail| <= |prompt|
       && prompt[..|head|] == head
       && prompt[|prompt| - |tail|..] == tail
    then
      var query := prompt[|head|..|prompt| - |tail|];
      assert prompt == prompt[..|head|] + query + prompt[|prompt| - |tail|..];
      Some(query)
    else None
  }

  /** Regrouping the pieces of the prompt, stated over arbitrary strings. */
  lemma Regroup(b: string, x: string, q: string, u: string, v: string, w: string)
    ensures b + " " + (" " + x + q + u + v + w) == (b + "  " + x) + q + (u + v + w)
  {
    assert " " + " " == "  ";
  }

  /** The query can be read back from the prompt. */
  lemma {:induction false} ParseBuiltPrompt(query: string, context: seq<string>)
    ensures ParseQuery(BuildPrompt(query, context), context) == Some(query)
  {
    var head := PromptHead();
    var tail := PromptTail(context);
    var p := BuildPrompt(query, context);
    assert p == head + query + tail;
    assert p[..|head|] == head;
    assert p[|p| - |tail|..] == tail;
    assert p[|head|..|p| - |tail|] == query;
  }

  /** The instruction ends in a full stop. */
  lemma InstructionEndsWithFullStop()
    ensures |BaseInstruction| > 0 && BaseInstruction[|BaseInstruction| - 1] == '.'
  {
  }

  /** The prompt opens with the fixed instruction; exactly two spaces follow
      its closing full stop (the joining space and the user part's own), and
      then the words introducing the question. */
  lemma PromptOpening(query: string, context: seq<string>)
    ensures var p := BuildPrompt(query, context);
            var n := |BaseInstruction|;
            && n + 2 + |QuestionOpening| <= |p|
            && p[..n] == BaseInstruction
            && p[n..n + 2] == "  "
            && p[n + 2..n + 2 + |QuestionOpening|] == QuestionOpening
  {
    var p := BuildPrompt(query, context);
    var rest := query + PromptTail(context);
    assert p == BaseInstruction + ("  " + (QuestionOpening + rest));
  }

  /** The literal query appears wrapped in single quotes and followed by a
      full stop: `The question is '<query>'.` */
  lemma QueryQuoted(query: string, context: seq<string>)
    ensures var p := BuildPrompt(query, context);
            var start := |BaseInstruction| + 2;
            var quoted := QuestionOpening + query + "'.";
            && start + |quoted| <= |p|
            && p[start..start + |quoted|] == quoted
  {
    var p := BuildPrompt(query, context);
    var start := |BaseInstruction| + 2;
    var quoted := QuestionOpening + query + "'.";
    var after := " " + ContextIntro + Join(' ', context);
    assert p == (BaseInstruction + "  ") + quoted + after;
  }

  /** The prompt ends with the words introducing the context followed
      directly by the context texts joined by single spaces; with no context
      it ends at the colon. */
  lemma PromptClosing(query: string, context: seq<string>)
    ensures EndsWith(BuildPrompt(query, context), ContextIntro + Join(' ', context))
    ensures context == [] ==> BuildPrompt(query, context)[|BuildPrompt(query, context)| - 1] == ':'
  {
    var p := BuildPrompt(query, context);
    var closing := ContextIntro + Join(' ', context);
    assert p == (PromptHead() + query + "'. ") + closing;
    if context == [] {
      assert closing == ContextIntro;
      assert ContextIntro[|ContextIntro| - 1] == ':';
    }
  }

  // ---------------------------------------------------------------------
  // Context and sources of the retrieved documents
  // ---------------------------------------------------------------------

  /** A retrieved chunk: its text and the `filename` metadata it was stored
      with. */
  datatype RetrievedDoc = RetrievedDoc(pageContent: string, filename: string)

  /** What `retrieve_documents` returns. */
  datatype Retrieval = Retrieval(context: seq<string>, sources: string)

  /** `[doc.page_content for doc in retrieved_docs]`. */
  function ContextOf(docs: seq<RetrievedDoc>): (context: seq<string>)
    ensures |context| == |docs|
    ensures forall i :: 0 <= i < |docs| ==> context[i] == docs[i].pageContent
  {
    if docs == [] then [] else [docs[0].pageContent] + ContextOf(docs[1..])
  }

  /** `set(doc.metadata['filename'] for doc in retrieved_docs)`. */
  function SourceNames(docs: seq<RetrievedDoc>): (names: set<string>)
    ensures forall name :: name in names <==> exists i :: 0 <= i < |docs| && docs[i].filename == name
  {
    if docs == [] then {} else {docs[0].filename} + SourceNames(docs[1..])
  }

  /** `order` lists every element of `names` exactly once: an iteration order
      of the set. */
  predicate Enumerates(order: seq<string>, names: set<string>)
  {
    && Distinct(order)
    && (forall name :: name in order ==> name in names)
    && (forall name :: name in names ==> name in order)
  }

  /** The end of `retrieve_documents`. The set of file names is iterated in
      `order`, an order the set chooses and the caller cannot influence. */
  function ProjectRetrieved(docs: seq<RetrievedDoc>, order: seq<string>): (r: Retrieval)
    requires Enumerates(order, SourceNames(docs))
    ensures |r.context| == |docs|
    ensures forall i :: 0 <= i < |docs| ==> r.context[i] == docs[i].pageContent
    ensures docs == [] ==> r == Retrieval([], "")
  {
    assert forall k :: 0 <= k < |order| ==> order[k] in order;
    Retrieval(ContextOf(docs), Join('\n', order))
  }

  /** Reading the sources text back line by line gives each distinct file
      name of the retrieved documents exactly once, and nothing else,
      provided no file name contains a line break. */
  lemma SourcesListEachNameOnce(docs: seq<RetrievedDoc>, order: seq<string>)
    requires Enumerates(order, SourceNames(docs))
    requires docs != []
    requires forall i :: 0 <= i < |docs| ==> '\n' !in docs[i].filename
    ensures var lines := Split('\n', ProjectRetrieved(docs, order).sources);
            && Distinct(lines)
            && forall name :: name in lines <==> exists i :: 0 <= i < |docs| && docs[i].filename == name
  {
    assert docs[0].filename in SourceNames(docs);
    assert docs[0].filename in order;
    forall k | 0 <= k < |order| ensures '\n' !in order[k] {
      assert order[k] in order;
      var i :| 0 <= i < |docs| && docs[i].filename == order[k];
    }
    SplitJoin('\n', order);
  }

  /** A list without repetitions holds each of its elements once. */
  lemma {:induction false} DistinctMultiplicity(s: seq<string>, x: string)
    requires Distinct(s)
    ensures multiset(s)[x] == if x in s then 1 else 0
  {
    if s != [] {
      assert s == [s[0]] + s[1..];
      assert Distinct(s[1..]) by {
        forall i, j | 0 <= i < j < |s[1..]| ensures s[1..][i] != s[1..][j] {
          assert s[1..][i] == s[i + 1] && s[1..][j] == s[j + 1];
        }
      }
      DistinctMultiplicity(s[1..], x);
      assert s[0] !in s[1..] by {
        forall k | 0 <= k < |s[1..]| ensures s[1..][k] != s[0] {
          assert s[1..][k] == s[k + 1];
        }
      }
    }
  }

  /** The set's iteration order does not change which names the sources
      text lists: any two orders are permutations of each other. */
  lemma SourcesOrderIrrelevant(docs: seq<RetrievedDoc>, order1: seq<string>, order2: seq<string>)
    requires Enumerates(order1, SourceNames(docs))
    requires Enumerates(order2, SourceNames(docs))
    ensures multiset(order1) == multiset(order2)
  {
    forall x ensures multiset(order1)[x] == multiset(order2)[x] {
      DistinctMultiplicity(order1, x);
      DistinctMultiplicity(order2, x);
    }
    assert multiset(order1) == multiset(order2);
  }
}
