/** The degraded-mode answer (`_generate_fallback_response`): a canned reply
    chosen by the first keyword list that has a word occurring in the
    lower-cased query. */
module Fallback {
  import opened Optional
  import opened Text

  const ProgrammingWords: seq<string> := ["python", "programming", "code", "function", "variable"]
  const CourseWords: seq<string> := ["course", "lesson", "learn", "study", "material"]
  const QuestionWords: seq<string> := ["what", "how", "why", "when", "where"]

  datatype Category = Programming | Course | Question | General

  /** First match wins: programming words, then course words, then
      interrogative words, and otherwise the general reply. */
  function Classify(query: string): Category
  {
    var lowered := Lower(query);
    if ContainsAny(lowered, ProgrammingWords) then Programming
    else if ContainsAny(lowered, CourseWords) then Course
    else if ContainsAny(lowered, QuestionWords) then Question
    else General
  }

  /** The words every fallback reply opens with. */
  const Opening: string := "I'm currently "

  /** The two ways the replies go on after the opening. */
  const Experiencing: string := "experiencing "
  const Unable: string := "unable to "

  /** The four replies keep their opening line and, where the query is
      quoted, the text around the quotes and the closing line; the lines of
      advice in between are not part of this model. Each is written as the
      opening, its verb and short pieces, so that the characters telling the
      replies apart can be read off. */
  const ProgrammingReply: string :=
    Opening + Experiencing + "an issue " + "with my AI service (insufficient API credits). "

  const CourseReply: string :=
    Opening + Unable + "access " + "my AI service due to insufficient API credits."

  /** The text before and after the quoted query in the interrogative reply. */
  const QuestionLead: string :=
    Opening + Experiencing + "technical " + "difficulties (insufficient API credits) and cannot fully process your question: "
  const QuestionTail: string :=
    "\n\nI apologize for the inconvenience!"

  /** The text before and after the quoted query in the general reply. */
  const GeneralLead: string :=
    Opening + Unable + "process " + "your request due to insufficient API credits.\n\nYour question: "
  const GeneralTail: string :=
    "\n\nThank you for your patience!"

  /** The query between double quotes, exactly as the caller wrote it. */
  function Quoted(query: string): string
  {
    "\"" + query + "\""
  }

  /** `_generate_fallback_response(query, conversation_history)`: total and
      pure; the history is accepted but plays no part. */
  function FallbackResponse(query: string, history: Option<string>): string
  {
    match Classify(query)
    case Programming => ProgrammingReply
    case Course => CourseReply
    case Question => QuestionLead + Quoted(query) + QuestionTail
    case General => GeneralLead + Quoted(query) + GeneralTail
  }

  /** The category is decided by the keyword lists in priority order: each
      category is chosen exactly when one of its words occurs in the
      lower-cased query and no word of an earlier list does. */
  lemma ClassifyPriority(query: string)
    ensures var q := Lower(query);
      && (Classify(query) == Programming <==> AnyOccurs(q, ProgrammingWords))
      && (Classify(query) == Course <==> !AnyOccurs(q, ProgrammingWords) && AnyOccurs(q, CourseWords))
      && (Classify(query) == Question <==>
            !AnyOccurs(q, ProgrammingWords) && !AnyOccurs(q, CourseWords) && AnyOccurs(q, QuestionWords))
      && (Classify(query) == General <==>
            !AnyOccurs(q, ProgrammingWords) && !AnyOccurs(q, CourseWords) && !AnyOccurs(q, QuestionWords))
  {
    var q := Lower(query);
    ContainsAnyOccurs(q, ProgrammingWords);
    ContainsAnyOccurs(q, CourseWords);
    ContainsAnyOccurs(q, QuestionWords);
  }

  /** A query holding both a programming word and an interrogative word gets
      the programming reply, not the interrogative one. */
  lemma ProgrammingBeatsQuestion(query: string, p: nat, w: nat)
    requires p < |ProgrammingWords| && Occurs(Lower(query), ProgrammingWords[p])
    requires w < |QuestionWords| && Occurs(Lower(query), QuestionWords[w])
    ensures Classify(query) == Programming
    ensures FallbackResponse(query, None) == ProgrammingReply
  {
    ClassifyPriority(query);
  }

  /** The example query "how do I write a python function" gets the programming reply. */
  lemma ProgrammingExample()
    ensures FallbackResponse("how do I write a python function", None) == ProgrammingReply
  {
    var query := "how do I write a python function";
    var q := Lower(query);
    assert q[17..23] == "python";
    assert OccursAt(q, ProgrammingWords[0], 17);
    assert q[..3] == "how";
    assert OccursAt(q, QuestionWords[1], 0);
    ProgrammingBeatsQuestion(query, 0, 1);
  }

  /** The history never changes the fallback text. */
  lemma FallbackIgnoresHistory(query: string, h1: Option<string>, h2: Option<string>)
    ensures FallbackResponse(query, h1) == FallbackResponse(query, h2)
  {
  }

  /** The programming and course replies are fixed texts; the interrogative
      and general replies carry the query, unchanged and between double
      quotes, right after their fixed lead. */
  lemma FallbackEchoesQuery(query: string, history: Option<string>)
    ensures var r := FallbackResponse(query, history);
      && (Classify(query) == Programming ==> r == ProgrammingReply)
      && (Classify(query) == Course ==> r == CourseReply)
      && (Classify(query) == Question ==>
            r[..|QuestionLead|] == QuestionLead
            && r[|QuestionLead|..|QuestionLead| + |query| + 2] == "\"" + query + "\"")
      && (Classify(query) == General ==>
            r[..|GeneralLead|] == GeneralLead
            && r[|GeneralLead|..|GeneralLead| + |query| + 2] == "\"" + query + "\"")
  {
    var r := FallbackResponse(query, history);
    match Classify(query)
    case Question =>
      assert r == QuestionLead + Quoted(query) + QuestionTail;
      assert r[..|QuestionLead|] == QuestionLead;
      assert r[|QuestionLead|..|QuestionLead| + |query| + 2] == Quoted(query);
    case General =>
      assert r == GeneralLead + Quoted(query) + GeneralTail;
      assert r[..|GeneralLead|] == GeneralLead;
      assert r[|GeneralLead|..|GeneralLead| + |query| + 2] == Quoted(query);
    case _ =>
  }

  /** Two queries of the same fixed-text category get the same reply, whatever
      else they say. */
  lemma FixedRepliesIgnoreQuery(q1: string, q2: string, h1: Option<string>, h2: Option<string>)
    requires Classify(q1) == Classify(q2)
    requires Classify(q1) == Programming || Classify(q1) == Course
    ensures FallbackResponse(q1, h1) == FallbackResponse(q2, h2)
  {
  }

  /** Every fallback reply opens with "I'm currently ". */
  lemma FallbackOpening(query: string, history: Option<string>)
    ensures var r := FallbackResponse(query, history);
      |r| >= |Opening| && r[..|Opening|] == Opening
  {
  }

  /** The characters that tell the four replies apart: the first letter
      after the opening, and the first letter after the verb. */
  lemma ReplyMarks(query: string, history: Option<string>)
    ensures var r := FallbackResponse(query, history);
      && |r| > 27
      && (Classify(query) == Programming ==> r[14] == 'e' && r[27] == 'a')
      && (Classify(query) == Question ==> r[14] == 'e' && r[27] == 't')
      && (Classify(query) == Course ==> r[14] == 'u' && r[24] == 'a')
      && (Classify(query) == General ==> r[14] == 'u' && r[24] == 'p')
  {
    var r := FallbackResponse(query, history);
    match Classify(query)
    case Programming =>
      assert r == Opening + Experiencing + "an issue " + "with my AI service (insufficient API credits). ";
    case Course =>
      assert r == Opening + Unable + "access " + "my AI service due to insufficient API credits.";
    case Question =>
      assert r == QuestionLead + Quoted(query) + QuestionTail;
      assert r[..|QuestionLead|] == QuestionLead;
    case General =>
      assert r == GeneralLead + Quoted(query) + GeneralTail;
      assert r[..|GeneralLead|] == GeneralLead;
  }

  /** Each category has its own reply: queries of different categories never
      get the same text. */
  lemma RepliesDistinct(q1: string, h1: Option<string>, q2: string, h2: Option<string>)
    requires Classify(q1) != Classify(q2)
    ensures FallbackResponse(q1, h1) != FallbackResponse(q2, h2)
  {
    ReplyMarks(q1, h1);
    ReplyMarks(q2, h2);
  }
}
