/** The static question bank of backend/app.py: `load_static_questions`,
    which collects the questions of the sections whose LLAB was selected from
    the aircraft file and the three rank categories, and the decision of
    `/static-question`. */
module StaticQuestions {
  import opened Results
  import opened RequestChecks

  /** A question object of the bank, kept opaque (its JSON text). */
  type Question = string

  /** One section of a question file: its `llab` (`None` when the key is
      absent or is not an integer) and its `questions`. */
  datatype Section = Section(llab: Option<int>, questions: seq<Question>)

  /** rankQuestions.json: its three categories, each a list of sections. */
  datatype RankFile = RankFile(cadetRanks: seq<Section>, enlistedRanks: seq<Section>,
                               officerRanks: seq<Section>)

  /** The result of `load_static_questions`. */
  datatype QuestionSets = QuestionSets(aircraft: seq<Question>, ranks: seq<Question>)

  predicate Picked(section: Section, llabNumbers: seq<int>) {
    section.llab.Some? && section.llab.value in llabNumbers
  }

  /** The questions of the picked sections, in file order: nothing when no
      section is picked. */
  function Chosen(sections: seq<Section>, llabNumbers: seq<int>): (r: seq<Question>)
    ensures (forall i :: 0 <= i < |sections| ==> !Picked(sections[i], llabNumbers)) ==> r == []
    decreases |sections|
  {
    if sections == [] then []
    else Chosen(sections[..|sections| - 1], llabNumbers)
         + (var last := sections[|sections| - 1];
            if Picked(last, llabNumbers) then last.questions else [])
  }

  /** Choosing from a concatenation of section lists concatenates the choices. */
  lemma {:induction false} ChosenConcat(a: seq<Section>, b: seq<Section>, llabNumbers: seq<int>)
    ensures Chosen(a + b, llabNumbers) == Chosen(a, llabNumbers) + Chosen(b, llabNumbers)
    decreases |b|
  {
    if b == [] {
      assert a + b == a;
    } else {
      var init, last := b[..|b| - 1], b[|b| - 1];
      var extra := if Picked(last, llabNumbers) then last.questions else [];
      assert (a + b)[..|a + b| - 1] == a + init && (a + b)[|a + b| - 1] == last;
      ChosenConcat(a, init, llabNumbers);
      calc {
        Chosen(a + b, llabNumbers);
        Chosen(a + init, llabNumbers) + extra;
        Chosen(a, llabNumbers) + Chosen(init, llabNumbers) + extra;
        Chosen(a, llabNumbers) + Chosen(b, llabNumbers);
      }
    }
  }

  /** A question is chosen exactly when some picked section holds it. */
  lemma {:induction false} ChosenMembers(sections: seq<Section>, llabNumbers: seq<int>, q: Question)
    ensures q in Chosen(sections, llabNumbers) <==>
              exists i :: 0 <= i < |sections| && Picked(sections[i], llabNumbers) && q in sections[i].questions
    decreases |sections|
  {
    if sections != [] {
      var init := sections[..|sections| - 1];
      var last := sections[|sections| - 1];
      ChosenMembers(init, llabNumbers, q);
      if exists i :: 0 <= i < |sections| && Picked(sections[i], llabNumbers) && q in sections[i].questions {
        var i :| 0 <= i < |sections| && Picked(sections[i], llabNumbers) && q in sections[i].questions;
        if i < |sections| - 1 {
          assert init[i] == sections[i];
        }
      }
      if exists i :: 0 <= i < |init| && Picked(init[i], llabNumbers) && q in init[i].questions {
        var i :| 0 <= i < |init| && Picked(init[i], llabNumbers) && q in init[i].questions;
        assert sections[i] == init[i];
      }
    }
  }

  /** A section whose LLAB is not selected contributes nothing. */
  lemma {:induction false} UnpickedInvisible(a: seq<Section>, s: Section, b: seq<Section>, llabNumbers: seq<int>)
    requires !Picked(s, llabNumbers)
    ensures Chosen(a + [s] + b, llabNumbers) == Chosen(a + b, llabNumbers)
  {
    ChosenConcat(a + [s], b, llabNumbers);
    ChosenConcat(a, b, llabNumbers);
    assert (a + [s])[..|a + [s]| - 1] == a;
  }

  /** The rank sections in the order the loader visits them. */
  function RankSections(file: RankFile): seq<Section> {
    file.cadetRanks + file.enlistedRanks + file.officerRanks
  }

  /** `extend` by the questions of the picked sections of one list. */
  method ExtendPicked(acc: seq<Question>, sections: seq<Section>, llabNumbers: seq<int>)
    returns (r: seq<Question>)
    ensures r == acc + Chosen(sections, llabNumbers)
  {
    r := acc;
    var k := 0;
    while k < |sections|
      invariant 0 <= k <= |sections|
      invariant r == acc + Chosen(sections[..k], llabNumbers)
    {
      assert sections[..k + 1][..k] == sections[..k];
      if Picked(sections[k], llabNumbers) {
        r := r + sections[k].questions;
      }
      k := k + 1;
    }
    assert sections[..k] == sections;
  }

  /** `load_static_questions(llab_numbers)`. A file that cannot be opened or
      parsed is `None` and contributes no questions. */
  method LoadStaticQuestions(llabNumbers: seq<int>, aircraftFile: Option<seq<Section>>,
                             rankFile: Option<RankFile>)
    returns (sets: QuestionSets)
    ensures sets.aircraft == (if aircraftFile.Some? then Chosen(aircraftFile.value, llabNumbers) else [])
    ensures sets.ranks == (if rankFile.Some? then Chosen(RankSections(rankFile.value), llabNumbers) else [])
  {
    var aircraft: seq<Question> := [];
    if aircraftFile.Some? {
      aircraft := ExtendPicked(aircraft, aircraftFile.value, llabNumbers);
    }
    var ranks: seq<Question> := [];
    if rankFile.Some? {
      var file := rankFile.value;
      var categories := [file.cadetRanks, file.enlistedRanks, file.officerRanks];
      var c := 0;
      while c < 3
        invariant 0 <= c <= 3
        invariant c == 0 ==> ranks == []
        invariant c == 1 ==> ranks == Chosen(file.cadetRanks, llabNumbers)
        invariant c == 2 ==> ranks == Chosen(file.cadetRanks + file.enlistedRanks, llabNumbers)
        invariant c == 3 ==> ranks == Chosen(RankSections(file), llabNumbers)
      {
        ranks := ExtendPicked(ranks, categories[c], llabNumbers);
        if c == 1 {
          ChosenConcat(file.cadetRanks, file.enlistedRanks, llabNumbers);
        } else if c == 2 {
          ChosenConcat(file.cadetRanks + file.enlistedRanks, file.officerRanks, llabNumbers);
        }
        c := c + 1;
      }
    }
    sets := QuestionSets(aircraft, ranks);
  }

  /** What `/static-question` answers: an error with its status, or a
      question (`None` is JSON null). */
  datatype StaticReply =
    | StaticError(status: int, error: string)
    | QuestionReply(question: Option<Question>)

  /** The candidates: every chosen aircraft question, then every chosen rank
      question. */
  function Candidates(llabNumbers: seq<int>, aircraftFile: Option<seq<Section>>,
                      rankFile: Option<RankFile>): seq<Question>
  {
    (if aircraftFile.Some? then Chosen(aircraftFile.value, llabNumbers) else [])
    + (if rankFile.Some? then Chosen(RankSections(rankFile.value), llabNumbers) else [])
  }

  /** A correct answer of `/static-question` to `body`: a body that is
      missing or not an object fails on `data.get` and gives 500; an object
      without LLABs gives 400; otherwise a question is served when there is
      any candidate, and it is one of the candidates. */
  predicate Answers(body: RequestJson, aircraftFile: Option<seq<Section>>, rankFile: Option<RankFile>,
                    reply: StaticReply)
  {
    && (!body.Object? ==> reply == StaticError(500, InternalServerError))
    && (body.Object? && body.llabNumbers == [] ==> reply == StaticError(400, BadRequestText(LlabRequired)))
    && (body.Object? && body.llabNumbers != [] ==>
          && reply.QuestionReply?
          && (reply.question.None? <==> Candidates(body.llabNumbers, aircraftFile, rankFile) == [])
          && (reply.question.Some? ==>
                reply.question.value in Candidates(body.llabNumbers, aircraftFile, rankFile)))
  }

  /** `get_static_question()` after the rate limiter. `random.choice` is the
      candidate at index `pick` modulo the number of candidates. */
  method StaticQuestion(body: RequestJson, aircraftFile: Option<seq<Section>>,
                        rankFile: Option<RankFile>, pick: nat)
    returns (reply: StaticReply)
    ensures Answers(body, aircraftFile, rankFile, reply)
  {
    if !body.Object? {
      return StaticError(500, InternalServerError);
    }
    if body.llabNumbers == [] {
      return StaticError(400, BadRequestText(LlabRequired));
    }
    var sets := LoadStaticQuestions(body.llabNumbers, aircraftFile, rankFile);
    var all := sets.aircraft + sets.ranks;
    if all == [] {
      return QuestionReply(None);
    }
    reply := QuestionReply(Some(all[pick % |all|]));
  }

  /** A question served comes from a section of one of the two files whose
      LLAB was selected. */
  lemma ServedFromSelected(llabNumbers: seq<int>, aircraftFile: Option<seq<Section>>,
                           rankFile: Option<RankFile>, q: Question)
    requires q in Candidates(llabNumbers, aircraftFile, rankFile)
    ensures || (aircraftFile.Some? &&
                exists i :: 0 <= i < |aircraftFile.value| && Picked(aircraftFile.value[i], llabNumbers)
                            && q in aircraftFile.value[i].questions)
            || (rankFile.Some? &&
                exists i :: 0 <= i < |RankSections(rankFile.value)| && Picked(RankSections(rankFile.value)[i], llabNumbers)
                            && q in RankSections(rankFile.value)[i].questions)
  {
    if aircraftFile.Some? {
      ChosenMembers(aircraftFile.value, llabNumbers, q);
    }
    if rankFile.Some? {
      ChosenMembers(RankSections(rankFile.value), llabNumbers, q);
    }
  }
}
