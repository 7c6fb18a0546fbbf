/** The results page of the session-storage upload flow
    (app/upload/results/page.tsx): it loads the generated answers, keeps one
    selected, and exports all of them as one plain-text document. */
module ResultsExport {
  import opened Common
  import opened Text

  /** `InterviewAnswer`. */
  datatype InterviewAnswer = InterviewAnswer(
    id: int,
    competency: string,
    question: string,
    situation: string,
    task: string,
    action: string,
    result: string,
    fullAnswer: string)

  /** The line that closes every block. */
  const SEPARATOR: string := Repeat('=', 80)

  /** The text of the answer at position `index` (0-based): a heading
      numbered by position, the competency and question, the four STAR parts
      under their headings, and the separator line. */
  function Block(index: nat, a: InterviewAnswer): string
  {
    Heading(index) + Details(a) + SEPARATOR + "\n"
  }

  function Heading(index: nat): string
  {
    "\nANSWER " + NatToString(index + 1) + "\n"
  }

  function Details(a: InterviewAnswer): string
  {
    "Competency: " + a.competency
    + "\nQuestion: " + a.question
    + "\n\nSITUATION:\n" + a.situation
    + "\n\nTASK:\n" + a.task
    + "\n\nACTION:\n" + a.action
    + "\n\nRESULT:\n" + a.result
    + "\n\n"
  }

  /** One block per answer, in list order. */
  function Blocks(answers: seq<InterviewAnswer>): (blocks: seq<string>)
    ensures |blocks| == |answers|
    ensures forall k :: 0 <= k < |answers| ==> blocks[k] == Block(k, answers[k])
  {
    seq(|answers|, k requires 0 <= k < |answers| => Block(k, answers[k]))
  }

  /** `handleDownload`'s content: the blocks joined by line breaks. */
  function Export(answers: seq<InterviewAnswer>): string
  {
    Join(Blocks(answers), "\n")
  }

  /** Every block opens with its position-numbered heading and closes with
      a line of exactly 80 `=`; the number in the heading reads back as the
      position plus one. */
  lemma BlockFrame(index: nat, a: InterviewAnswer)
    ensures var b := Block(index, a);
      var heading := "\nANSWER " + NatToString(index + 1) + "\n";
      && |b| > |heading| + 81
      && b[..|heading|] == heading
      && b[|b| - 81..] == SEPARATOR + "\n"
      && AllDigits(NatToString(index + 1)) && ParseNat(NatToString(index + 1)) == index + 1
  {
    var h, d, c := Heading(index), Details(a), SEPARATOR + "\n";
    assert |d| > 0 by { assert d[..12] == "Competency: "; }
    assert Block(index, a) == h + (d + c);
    assert (h + (d + c))[..|h|] == h;
    assert (h + d + c)[|h + d|..] == c;
    ParseNatToString(index + 1);
  }

  /** The export does not depend on the answers' ids: blocks are numbered
      by position. */
  lemma ExportIgnoresIds(answers: seq<InterviewAnswer>, renumbered: seq<InterviewAnswer>)
    requires |renumbered| == |answers|
    requires forall k :: 0 <= k < |answers| ==> renumbered[k] == answers[k].(id := renumbered[k].id)
    ensures Export(renumbered) == Export(answers)
  {
    assert Blocks(renumbered) == Blocks(answers);
  }

  /** No answers export as the empty text; otherwise every block is there. */
  lemma ExportEmptyIff(answers: seq<InterviewAnswer>)
    ensures Export(answers) == "" <==> answers == []
  {
    if answers != [] {
      BlockFrame(0, answers[0]);
      if |answers| > 1 {
        assert Export(answers)[..|Block(0, answers[0])|] == Block(0, answers[0]);
      }
    }
  }

  /** Adding an answer at the end adds one line break and its block at the
      end of the export, and changes nothing before it. */
  lemma ExportSnoc(answers: seq<InterviewAnswer>, a: InterviewAnswer)
    ensures Export(answers + [a]) ==
      if answers == [] then Block(0, a) else Export(answers) + "\n" + Block(|answers|, a)
  {
    assert Blocks(answers + [a]) == Blocks(answers) + [Block(|answers|, a)];
    JoinSnoc(Blocks(answers), Block(|answers|, a), "\n");
  }

  class ResultsPage {
    var answers: seq<InterviewAnswer>
    var selected: Option<InterviewAnswer>
    /** Where the page sent the browser, if anywhere. */
    var redirectedTo: Option<string>

    constructor ()
      ensures answers == [] && selected == None && redirectedTo == None
    {
      answers, selected, redirectedTo := [], None, None;
    }

    /** The load effect. `stored` is what session storage held under
        `interviewAnswers`, already parsed; None when nothing (or the empty
        string) was stored. Stored answers replace the list and the first of
        them becomes selected; with nothing stored the page goes back to
        the upload page. */
    method Load(stored: Option<seq<InterviewAnswer>>)
      modifies this
      ensures stored.None? ==> redirectedTo == Some("/upload") && answers == old(answers) && selected == old(selected)
      ensures stored.Some? ==> answers == stored.value && redirectedTo == old(redirectedTo)
      ensures stored.Some? && stored.value != [] ==> selected == Some(stored.value[0])
      ensures stored.Some? && stored.value == [] ==> selected == old(selected)
    {
      if stored.None? {
        redirectedTo := Some("/upload");
        return;
      }
      answers := stored.value;
      if |stored.value| > 0 {
        selected := Some(stored.value[0]);
      }
    }

    /** Clicking an answer in the list selects it. */
    method Select(a: InterviewAnswer)
      modifies this
      ensures selected == Some(a)
      ensures forall b :: Highlighted(b) <==> b.id == a.id
      ensures answers == old(answers) && redirectedTo == old(redirectedTo)
    {
      selected := Some(a);
    }

    /** A list entry is highlighted when its id is the selected answer's. */
    predicate Highlighted(a: InterviewAnswer)
      reads this
    {
      selected.Some? && selected.value.id == a.id
    }

    /** The downloaded `interview-answers.txt`: one block per loaded answer,
        numbered by position. */
    function Download(): (content: string)
      reads this
      ensures content == "" <==> answers == []
    {
      ExportEmptyIff(answers);
      Export(answers)
    }
  }
}
