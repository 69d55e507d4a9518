/**
 * The questionnaire of octopus_sensing/questionnaire/questionnaire.py: the
 * list of questions it is given, and the CSV file its answers are appended
 * to. The GTK window, the rendering of each question and the directory it
 * creates are not modelled; a question is its id and the answer its widget
 * holds when the participant presses "Done".
 */
module Questionnaires {
  import opened Common

  /** A question: its id and what `get_answer` returns (an int or a str). */
  datatype Question = Question(id: string, answer: Value)

  /** One CSV row as the csv writer receives it. */
  type Row = seq<Value>

  /** Some question already in the list has this id. */
  predicate HasId(qs: seq<Question>, id: string)
  {
    exists k :: 0 <= k < |qs| && qs[k].id == id
  }

  /** No two questions share an id. */
  predicate DistinctIds(qs: seq<Question>)
  {
    forall j, k :: 0 <= j < k < |qs| ==> qs[j].id != qs[k].id
  }

  // ---------------------------------------------------------------- add_question

  /**
   * The objects the guard of `add_question` compares: `question.id in
   * self._questions` tests a str against each Question of the list.
   */
  datatype PyObject = PyStr(s: string) | PyQuestion(q: Question)

  /**
   * Python's `==` between the two: two strs by their text; Question defines
   * no `__eq__`, so Question objects compare by identity, taken here as equal
   * contents; a str and a Question are never equal.
   */
  predicate PyEq(a: PyObject, b: PyObject)
  {
    match (a, b)
    case (PyStr(x), PyStr(y)) => x == y
    case (PyQuestion(x), PyQuestion(y)) => x == y
    case _ => false
  }

  /** `question.id in self._questions`, as written. */
  predicate GuardAsWritten(qs: seq<Question>, q: Question)
  {
    exists k :: 0 <= k < |qs| && PyEq(PyStr(q.id), PyQuestion(qs[k]))
  }

  /** `add_question` as written: the new list, or the RuntimeError of its guard. */
  function AddedAsWritten(qs: seq<Question>, q: Question): Result<seq<Question>>
  {
    if GuardAsWritten(qs, q) then Err("RuntimeError") else Ok(qs + [q])
  }

  /**
   * `add_question` as its message says it is meant to work: a question whose
   * id is already in the questionnaire raises RuntimeError and is not added.
   */
  function Added(qs: seq<Question>, q: Question): (r: Result<seq<Question>>)
    ensures r.Ok? <==> !HasId(qs, q.id)
    ensures r.Ok? ==> r.value == qs + [q]
    ensures r.Err? ==> r.error == "RuntimeError"
  {
    if HasId(qs, q.id) then Err("RuntimeError") else Ok(qs + [q])
  }

  /**
   * The guard as written never fires: a question whose id is already taken
   * is appended, and the questionnaire then holds two questions with one id,
   * where the intended guard raises and keeps the list as it was.
   */
  lemma DuplicateAcceptedAsWritten(qs: seq<Question>, q: Question)
    requires HasId(qs, q.id)
    ensures AddedAsWritten(qs, q) == Ok(qs + [q])
    ensures !DistinctIds(AddedAsWritten(qs, q).value)
    ensures Added(qs, q) == Err("RuntimeError")
  {
    var k :| 0 <= k < |qs| && qs[k].id == q.id;
    assert (qs + [q])[k].id == (qs + [q])[|qs|].id;
  }

  /** Adding a question keeps the ids of the questionnaire distinct. */
  lemma AddedKeepsIdsDistinct(qs: seq<Question>, q: Question)
    requires DistinctIds(qs)
    ensures Added(qs, q).Ok? ==> DistinctIds(Added(qs, q).value)
  {
    if Added(qs, q).Ok? {
      var r := qs + [q];
      forall j, k | 0 <= j < k < |r|
        ensures r[j].id != r[k].id
      {
        if k == |qs| {
          assert r[j] == qs[j];
        }
      }
    }
  }

  // ---------------------------------------------------------------- add_questions

  /**
   * `add_questions`: each question in turn, stopping at the first that
   * raises. The questions added before it stay; the result is the final list
   * and the error, if any.
   */
  function AddedAll(qs: seq<Question>, more: seq<Question>): (seq<Question>, Option<string>)
    decreases |more|
  {
    if more == [] then (qs, None)
    else
      var r := Added(qs, more[0]);
      if r.Err? then (qs, Some(r.error)) else AddedAll(r.value, more[1..])
  }

  /**
   * `add_questions` appends a prefix of the given questions, in the given
   * order, and stops short only on an error; the ids stay distinct.
   */
  lemma {:induction false} AddedAllPrefix(qs: seq<Question>, more: seq<Question>)
    requires DistinctIds(qs)
    ensures var (r, error) := AddedAll(qs, more);
      |qs| <= |r| <= |qs| + |more| && r == (qs + more)[..|r|] &&
      (error.None? <==> |r| == |qs| + |more|) && DistinctIds(r)
    decreases |more|
  {
    if more != [] {
      var a := Added(qs, more[0]);
      if a.Ok? {
        AddedKeepsIdsDistinct(qs, more[0]);
        AddedAllPrefix(a.value, more[1..]);
        assert a.value + more[1..] == qs + more;
      }
    }
  }

  /** Questions with ids distinct from each other and from those present are all appended, in order. */
  lemma {:induction false} AddedAllInOrder(qs: seq<Question>, more: seq<Question>)
    requires DistinctIds(qs + more)
    ensures AddedAll(qs, more) == (qs + more, None)
    decreases |more|
  {
    if more == [] {
      assert qs + more == qs;
    } else {
      var all := qs + more;
      assert !HasId(qs, more[0].id) by {
        forall k | 0 <= k < |qs|
          ensures qs[k].id != more[0].id
        {
          assert all[k] == qs[k] && all[|qs|] == more[0];
        }
      }
      var next := qs + [more[0]];
      assert Added(qs, more[0]) == Ok(next);
      assert next + more[1..] == all;
      AddedAllInOrder(next, more[1..]);
    }
  }

  // ---------------------------------------------------------------- _save_answers

  /** The answers file, `"{output_path}/{name}-{experiment_id}.csv"`. */
  function AnswersFile(outputPath: string, name: string, experimentId: string): string
  {
    outputPath + "/" + name + "-" + experimentId + ".csv"
  }

  /** The ids of the questions, in order. */
  function Ids(qs: seq<Question>): (r: Row)
    ensures |r| == |qs|
    ensures forall k :: 0 <= k < |qs| ==> r[k] == VStr(qs[k].id)
  {
    if qs == [] then [] else Ids(qs[..|qs| - 1]) + [VStr(qs[|qs| - 1].id)]
  }

  /** The answers to the questions, in order. */
  function Answers(qs: seq<Question>): (r: Row)
    ensures |r| == |qs|
    ensures forall k :: 0 <= k < |qs| ==> r[k] == qs[k].answer
  {
    if qs == [] then [] else Answers(qs[..|qs| - 1]) + [qs[|qs| - 1].answer]
  }

  /** The header row: "stimulus ID", then the question ids. */
  function Header(qs: seq<Question>): Row
  {
    [VStr("stimulus ID")] + Ids(qs)
  }

  /** The answer row: the stimulus id, then the answers. */
  function AnswerRow(stimulusId: string, qs: seq<Question>): Row
  {
    [VStr(stimulusId)] + Answers(qs)
  }

  /** The header loop of `_save_answers`: "stimulus ID", then each question's id. */
  method HeaderOf(questions: seq<Question>) returns (header: Row)
    ensures header == Header(questions)
  {
    header := [VStr("stimulus ID")];
    var i := 0;
    while i < |questions|
      invariant 0 <= i <= |questions|
      invariant header == [VStr("stimulus ID")] + Ids(questions[..i])
    {
      assert questions[..i + 1][..i] == questions[..i];
      header := header + [VStr(questions[i].id)];
      i := i + 1;
    }
    assert questions[..i] == questions;
  }

  /** The row loop of `_save_answers`: the stimulus id, then each question's answer. */
  method RowOf(stimulusId: string, questions: seq<Question>) returns (row: Row)
    ensures row == AnswerRow(stimulusId, questions)
  {
    row := [VStr(stimulusId)];
    var i := 0;
    while i < |questions|
      invariant 0 <= i <= |questions|
      invariant row == [VStr(stimulusId)] + Answers(questions[..i])
    {
      assert questions[..i + 1][..i] == questions[..i];
      row := row + [questions[i].answer];
      i := i + 1;
    }
    assert questions[..i] == questions;
  }

  /**
   * The files after `_save_answers`: a file that does not exist yet starts
   * with the header; the answer row is then appended.
   */
  function SavedAnswers(files: map<string, seq<Row>>, file: string, header: Row, row: Row): (r: map<string, seq<Row>>)
  {
    var before := if file in files then files[file] else [header];
    files[file := before + [row]]
  }

  /**
   * Saving touches only the answers file; it gains exactly one row, the
   * answers, and the header comes first exactly when the file was new.
   */
  lemma SaveAppendsOneRow(files: map<string, seq<Row>>, outputPath: string, name: string, experimentId: string,
                          stimulusId: string, qs: seq<Question>)
    ensures var file := AnswersFile(outputPath, name, experimentId);
      var r := SavedAnswers(files, file, Header(qs), AnswerRow(stimulusId, qs));
      r.Keys == files.Keys + {file} &&
      (forall f :: f in files && f != file ==> r[f] == files[f]) &&
      (file in files ==> r[file] == files[file] + [AnswerRow(stimulusId, qs)]) &&
      (file !in files ==> r[file] == [Header(qs), AnswerRow(stimulusId, qs)])
  {
  }

  /** The answer row lines up with the header: the same length, and column k+1 answers question k. */
  lemma RowMatchesHeader(stimulusId: string, qs: seq<Question>)
    ensures |AnswerRow(stimulusId, qs)| == |Header(qs)| == |qs| + 1
    ensures Header(qs)[0] == VStr("stimulus ID") && AnswerRow(stimulusId, qs)[0] == VStr(stimulusId)
    ensures forall k :: 0 <= k < |qs| ==> Header(qs)[k + 1] == VStr(qs[k].id) && AnswerRow(stimulusId, qs)[k + 1] == qs[k].answer
  {
    var h, a := Header(qs), AnswerRow(stimulusId, qs);
    forall k | 0 <= k < |qs|
      ensures h[k + 1] == VStr(qs[k].id) && a[k + 1] == qs[k].answer
    {
      assert h[k + 1] == Ids(qs)[k];
      assert a[k + 1] == Answers(qs)[k];
    }
  }

  /**
   * Two questionnaires of the same name and experiment saved one after the
   * other share one file: one header, then both answer rows in order.
   */
  lemma TwoSavesOneHeader(files: map<string, seq<Row>>, outputPath: string, name: string, experimentId: string,
                          first: string, second: string, qs: seq<Question>, qs2: seq<Question>)
    requires AnswersFile(outputPath, name, experimentId) !in files
    ensures var file := AnswersFile(outputPath, name, experimentId);
      var once := SavedAnswers(files, file, Header(qs), AnswerRow(first, qs));
      var twice := SavedAnswers(once, file, Header(qs2), AnswerRow(second, qs2));
      twice[file] == [Header(qs), AnswerRow(first, qs), AnswerRow(second, qs2)]
  {
  }

  // ---------------------------------------------------------------- the questionnaire object

  class Questionnaire {
    const name: string
    const experimentId: string
    const stimulusId: string
    const outputPath: string
    var questions: seq<Question>

    constructor (name: string, experimentId: string, stimulusId: string, outputPath: string)
      ensures this.name == name && this.experimentId == experimentId
      ensures this.stimulusId == stimulusId && this.outputPath == outputPath
      ensures questions == []
    {
      this.name := name;
      this.experimentId := experimentId;
      this.stimulusId := stimulusId;
      this.outputPath := outputPath;
      questions := [];
    }

    /** `add_question`, with the guard as intended: the error it raises, if any. */
    method AddQuestion(q: Question) returns (error: Option<string>)
      modifies this
      ensures Added(old(questions), q) == (if error.None? then Ok(questions) else Err(error.value))
      ensures error.Some? ==> questions == old(questions)
    {
      var i := 0;
      while i < |questions|
        invariant 0 <= i <= |questions|
        invariant forall k :: 0 <= k < i ==> questions[k].id != q.id
      {
        if questions[i].id == q.id {
          return Some("RuntimeError");
        }
        i := i + 1;
      }
      questions := questions + [q];
      error := None;
    }

    /** `add_questions`: the questions in turn, stopping at the first error. */
    method AddQuestions(more: seq<Question>) returns (error: Option<string>)
      modifies this
      ensures (questions, error) == AddedAll(old(questions), more)
    {
      var i := 0;
      error := None;
      while i < |more|
        invariant 0 <= i <= |more|
        invariant error.None?
        invariant AddedAll(old(questions), more) == AddedAll(questions, more[i..])
      {
        assert more[i..][1..] == more[i + 1..];
        ghost var before := questions;
        error := AddQuestion(more[i]);
        if error.Some? {
          assert AddedAll(before, more[i..]) == (before, error);
          return;
        }
        i := i + 1;
      }
      assert more[i..] == [];
    }

    /**
     * `_save_answers` on the files as they are: the header and the row built
     * question by question, and the files as they are afterwards.
     */
    method SaveAnswers(files: map<string, seq<Row>>) returns (saved: map<string, seq<Row>>)
      ensures saved == SavedAnswers(files, AnswersFile(outputPath, name, experimentId),
                                    Header(questions), AnswerRow(stimulusId, questions))
    {
      var file := outputPath + "/" + name + "-" + experimentId + ".csv";
      saved := files;
      if file !in saved {
        var header := HeaderOf(questions);
        saved := saved[file := [header]];
      }
      var row := RowOf(stimulusId, questions);
      saved := saved[file := saved[file] + [row]];
    }
  }
}
