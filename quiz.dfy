/** The photo and audio quizzes (js/quiz.js): the per-quiz `answered`/`score`/
    `total` state, the assembly of a question's options and the grading of an
    answer. Both quizzes run the same state machine, so one class models a round
    and the Quiz object holds two of them. */
module Quiz {
  import opened Common
  import opened Data
  import St = Storage

  /** Wrong answers offered with each question. */
  const WRONG_ANSWERS := 3

  /** Shuffling the bird together with wrong answers of other ids leaves exactly
      one option carrying the bird's id: the bird itself, once. */
  lemma OneOptionHasTheId(current: Bird, wrong: seq<Bird>, options: seq<Bird>)
    requires forall b :: b in wrong ==> b.id != current.id
    requires multiset(options) == multiset([current] + wrong)
    ensures multiset(options)[current] == 1
    ensures forall k :: 0 <= k < |options| && options[k].id == current.id ==> options[k] == current
  {
    assert current !in multiset(wrong);
    assert multiset([current] + wrong) == multiset{current} + multiset(wrong);
    forall k | 0 <= k < |options| && options[k].id == current.id
      ensures options[k] == current
    {
      assert options[k] in multiset([current] + wrong);
    }
  }

  /** Adding `current` to wrong answers drawn from the others keeps the options
      within the catalog, position for position. */
  lemma OptionsWithinCatalog(current: Bird, wrong: seq<Bird>, birds: seq<Bird>)
    requires current in birds && multiset(wrong) <= multiset(birds)
    requires forall b :: b in wrong ==> b.id != current.id
    ensures multiset([current] + wrong) <= multiset(birds)
  {
    assert current !in multiset(wrong);
    forall x ensures multiset([current] + wrong)[x] <= multiset(birds)[x] {
      assert multiset([current] + wrong)[x] == multiset{current}[x] + multiset(wrong)[x];
    }
  }

  /** The option list of nextPhotoQuestion / nextAudioQuestion: the bird plus up
      to three others with a different id, shuffled in place. */
  method AssembleOptions(data: BirdData, current: Bird) returns (options: seq<Bird>)
    requires current in data.birds[..]
    ensures |options| == 1 + Min(WRONG_ANSWERS, |Exclude(data.birds[..], Some(current.id))|)
    ensures current in options && multiset(options)[current] == 1
    ensures forall k :: 0 <= k < |options| && options[k].id == current.id ==> options[k] == current
    ensures multiset(options) <= multiset(data.birds[..])
  {
    var wrong := data.GetRandomBirds(WRONG_ANSWERS, Some(current.id));
    var picked := [current] + wrong;
    var arr := new Bird[|picked|](i requires 0 <= i < |picked| => picked[i]);
    assert arr[..] == picked;
    ShuffleInPlace(arr);
    options := arr[..];
    OneOptionHasTheId(current, wrong, options);
    assert current in multiset(options);
    OptionsWithinCatalog(current, wrong, data.birds[..]);
  }

  /** What became of a click on an option. */
  datatype AnswerResult =
    | Ignored          // the question was already answered
    | NoQuestion       // there is no current bird: the id lookup throws
    | SaveFailed       // the progress write rejected; grading stops there
    | Graded(correct: bool)

  /** One quiz's state: the `photo` or `audio` object. */
  class QuizRound {
    var currentBird: Option<Bird>
    var options: seq<Bird>
    var answered: bool
    var score: nat
    var total: nat

    /** No more correct answers than answered questions. */
    ghost predicate Valid()
      reads this
    {
      score <= total
    }

    constructor ()
      ensures Valid()
      ensures currentBird == None && options == [] && !answered && score == 0 && total == 0
    {
      currentBird, options, answered, score, total := None, [], false, 0, 0;
    }

    /** startPhotoQuiz / startAudioQuiz: zero the counters, then ask a question. */
    method Start(data: BirdData) returns (asked: bool)
      modifies this
      ensures Valid() && score == 0 && total == 0 && !answered
      ensures asked <==> data.birds.Length > 0
      ensures asked ==> currentBird.Some? && currentBird.value in data.birds[..]
      ensures asked ==> |options| == 1 + Min(WRONG_ANSWERS, |Exclude(data.birds[..], Some(currentBird.value.id))|)
      ensures asked ==> currentBird.value in options && multiset(options)[currentBird.value] == 1
      ensures asked ==> forall k :: 0 <= k < |options| && options[k].id == currentBird.value.id ==>
        options[k] == currentBird.value
      ensures asked ==> multiset(options) <= multiset(data.birds[..])
      ensures !asked ==> currentBird == None && options == old(options)
    {
      score := 0;
      total := 0;
      asked := NextQuestion(data);
    }

    /** nextPhotoQuestion / nextAudioQuestion up to the shuffle: clear `answered`,
        pick any bird, and offer it with up to three others, shuffled. With no
        birds the index-0 lookup is undefined and the id access throws. */
    method NextQuestion(data: BirdData) returns (asked: bool)
      modifies this
      ensures !answered && score == old(score) && total == old(total)
      ensures asked <==> data.birds.Length > 0
      ensures !asked ==> currentBird == None && options == old(options)
      ensures asked ==> currentBird.Some? && currentBird.value in data.birds[..]
      ensures asked ==> |options| == 1 + Min(WRONG_ANSWERS, |Exclude(data.birds[..], Some(currentBird.value.id))|)
      ensures asked ==> currentBird.value in options && multiset(options)[currentBird.value] == 1
      ensures asked ==> forall k :: 0 <= k < |options| && options[k].id == currentBird.value.id ==>
        options[k] == currentBird.value
      ensures asked ==> multiset(options) <= multiset(data.birds[..])
    {
      answered := false;
      var randomIndex := 0;
      if data.birds.Length > 0 {
        randomIndex :| 0 <= randomIndex < data.birds.Length;
      }
      currentBird := data.GetBirdByIndex(randomIndex);
      if currentBird.None? {
        return false;
      }
      assert currentBird.value == data.birds[randomIndex];
      options := AssembleOptions(data, currentBird.value);
      asked := true;
    }

    /** handlePhotoAnswer / handleAudioAnswer: a second click on the same question
        is ignored; otherwise the question counts once, the answer is recorded in
        the progress store, and the score rises iff the chosen id is the bird's. */
    method HandleAnswer(selectedId: string, store: St.Store, now: St.Timestamp, writeOk: bool)
      returns (r: AnswerResult)
      requires store.Valid()
      modifies this, store
      ensures store.Valid()
      ensures old(Valid()) ==> Valid()
      ensures currentBird == old(currentBird) && options == old(options)
      ensures r == (if old(answered) then Ignored
                    else if currentBird.None? then NoQuestion
                    else if !writeOk then SaveFailed
                    else Graded(selectedId == currentBird.value.id))
      ensures answered && total == old(total) + (if old(answered) then 0 else 1)
      ensures score == old(score) + (if r == Graded(true) then 1 else 0)
      ensures r.SaveFailed? || r.Graded? ==>
        store.progress == (if writeOk
          then old(store.progress)[currentBird.value.id :=
            St.Answered(old(store.GetProgress(currentBird.value.id)), selectedId == currentBird.value.id, now)]
          else old(store.progress))
      ensures r.Ignored? || r.NoQuestion? ==> store.progress == old(store.progress)
      ensures store.settings == old(store.settings)
    {
      if answered {
        return Ignored;
      }
      answered := true;
      total := total + 1;
      if currentBird.None? {
        return NoQuestion;
      }
      var correct := selectedId == currentBird.value.id;
      var _, o := store.UpdateQuizProgress(currentBird.value.id, correct, now, writeOk);
      if o == St.Failed {
        return SaveFailed;
      }
      if correct {
        score := score + 1;
      }
      r := Graded(correct);
    }
  }

  /** The Quiz object: one round per quiz mode. */
  class QuizState {
    const photo: QuizRound
    const audio: QuizRound

    ghost predicate Valid()
      reads this, photo, audio
    {
      photo != audio && photo.Valid() && audio.Valid()
    }

    constructor ()
      ensures Valid() && fresh(photo) && fresh(audio)
      ensures photo.total == 0 && audio.total == 0 && photo.score == 0 && audio.score == 0
    {
      photo := new QuizRound();
      audio := new QuizRound();
    }

    /** reset: zero the counters of both quizzes and nothing else. */
    method Reset()
      requires Valid()
      modifies photo, audio
      ensures Valid()
      ensures photo.score == 0 && photo.total == 0 && audio.score == 0 && audio.total == 0
      ensures photo.answered == old(photo.answered) && audio.answered == old(audio.answered)
      ensures photo.currentBird == old(photo.currentBird) && audio.currentBird == old(audio.currentBird)
      ensures photo.options == old(photo.options) && audio.options == old(audio.options)
    {
      photo.score := 0;
      photo.total := 0;
      audio.score := 0;
      audio.total := 0;
    }
  }
}
