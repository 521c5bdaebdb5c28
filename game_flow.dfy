/** The sorting game's flow: the participant ID entry, the prompts between
    rounds, the question selection of each round, the practice session and the
    end of the game. */
module GameFlow {
  import opened Values

  // ---------------------------------------------------------------------------
  // Participant ID
  // ---------------------------------------------------------------------------

  /** The white space and line terminators that `String.prototype.trim` removes. */
  predicate IsTrimmed(c: char)
  {
    || c == '\t' || c == '\n' || c == '\U{000B}' || c == '\U{000C}' || c == '\r' || c == ' '
    || c == '\U{00A0}' || c == '\U{1680}' || ('\U{2000}' <= c <= '\U{200A}')
    || c == '\U{2028}' || c == '\U{2029}' || c == '\U{202F}' || c == '\U{205F}'
    || c == '\U{3000}' || c == '\U{FEFF}'
  }

  /** `s` without its leading white space. */
  function TrimStart(s: string): (r: string)
    ensures |r| <= |s| && r == s[|s| - |r|..]
    ensures r != [] ==> !IsTrimmed(r[0])
  {
    if s != [] && IsTrimmed(s[0]) then TrimStart(s[1..]) else s
  }

  /** What `TrimStart` cuts is white space. */
  lemma {:induction false} TrimStartCutsWhiteSpace(s: string)
    ensures forall i :: 0 <= i < |s| - |TrimStart(s)| ==> IsTrimmed(s[i])
  {
    if s != [] && IsTrimmed(s[0]) {
      TrimStartCutsWhiteSpace(s[1..]);
      forall i | 1 <= i < |s| - |TrimStart(s)|
        ensures IsTrimmed(s[i])
      {
        assert s[i] == s[1..][i - 1];
      }
    }
  }

  /** `s` without its trailing white space. */
  function TrimEnd(s: string): (r: string)
    ensures |r| <= |s| && r == s[..|r|]
    ensures r != [] ==> !IsTrimmed(r[|r| - 1])
  {
    if s != [] && IsTrimmed(s[|s| - 1]) then TrimEnd(s[..|s| - 1]) else s
  }

  /** What `TrimEnd` cuts is white space. */
  lemma {:induction false} TrimEndCutsWhiteSpace(s: string)
    ensures forall i :: |TrimEnd(s)| <= i < |s| ==> IsTrimmed(s[i])
  {
    if s != [] && IsTrimmed(s[|s| - 1]) {
      TrimEndCutsWhiteSpace(s[..|s| - 1]);
      forall i | |TrimEnd(s)| <= i < |s| - 1
        ensures IsTrimmed(s[i])
      {
        assert s[i] == s[..|s| - 1][i];
      }
    }
  }

  /** `s.trim()`. */
  function Trim(s: string): (r: string)
    ensures r != [] ==> !IsTrimmed(r[0]) && !IsTrimmed(r[|r| - 1])
  {
    TrimEnd(TrimStart(s))
  }

  /** The trimmed text is the piece of the input that starts where
      `TrimStart` stops cutting. */
  lemma TrimIsSlice(s: string)
    ensures var start := |s| - |TrimStart(s)|;
      start + |Trim(s)| <= |s| && Trim(s) == s[start..start + |Trim(s)|]
  {
    var t := TrimStart(s);
    var r := TrimEnd(t);
    var start := |s| - |t|;
    assert t == s[start..];
    assert r == t[..|r|];
  }

  /** Everything of the input after the trimmed text is white space, as is
      everything before it (`TrimStartCutsWhiteSpace`). */
  lemma TrimCutsTrailingWhiteSpace(s: string)
    ensures forall i :: |s| - |TrimStart(s)| + |Trim(s)| <= i < |s| ==> IsTrimmed(s[i])
  {
    var t := TrimStart(s);
    var start := |s| - |t|;
    TrimEndCutsWhiteSpace(t);
    forall i | start + |Trim(s)| <= i < |s|
      ensures IsTrimmed(s[i])
    {
      assert s[i] == t[i - start];
    }
  }

  /** A string without white space at either end is its own trim. */
  lemma TrimLeavesTrimmed(s: string)
    requires s != [] ==> !IsTrimmed(s[0]) && !IsTrimmed(s[|s| - 1])
    ensures Trim(s) == s
  {
  }

  /** Trimming twice is trimming once. */
  lemma TrimIdempotent(s: string)
    ensures Trim(Trim(s)) == Trim(s)
  {
    TrimLeavesTrimmed(Trim(s));
  }

  /** A character of `[a-zA-Z0-9_-]`. */
  predicate IdChar(c: char)
  {
    ('a' <= c <= 'z') || ('A' <= c <= 'Z') || ('0' <= c <= '9') || c == '_' || c == '-'
  }

  /** The text of the ID error element: empty, or one of the two messages. */
  datatype IdError = NoIdError | MissingId | BadCharacters

  function IdErrorText(e: IdError): string
  {
    match e
    case NoIdError => ""
    case MissingId => "Please enter a Participant ID."
    case BadCharacters => "ID can only contain letters, numbers, underscore, dash."
  }

  /** What `handleIdSubmit` decides about the entered text. */
  datatype IdCheck = Accepted(id: string) | EmptyId | InvalidCharacters

  /** `handleIdSubmit`'s two checks on the trimmed input. */
  function CheckId(input: string): (r: IdCheck)
    ensures r == EmptyId <==> Trim(input) == ""
    ensures r == InvalidCharacters <==> Trim(input) != "" && exists i :: 0 <= i < |Trim(input)| && !IdChar(Trim(input)[i])
    ensures r.Accepted? ==> r.id == Trim(input) && r.id != "" && forall i :: 0 <= i < |r.id| ==> IdChar(r.id[i])
  {
    var id := Trim(input);
    if id == "" then EmptyId
    else if exists i :: 0 <= i < |id| && !IdChar(id[i]) then InvalidCharacters
    else Accepted(id)
  }

  /** An accepted ID is accepted unchanged when entered again, and the IDs
      accepted are exactly the non-empty strings over `[a-zA-Z0-9_-]`. */
  lemma AcceptedIdsAreStable(id: string)
    requires id != "" && forall i :: 0 <= i < |id| ==> IdChar(id[i])
    ensures CheckId(id) == Accepted(id)
  {
    assert !IsTrimmed(id[0]) && !IsTrimmed(id[|id| - 1]) by {
      assert IdChar(id[0]) && IdChar(id[|id| - 1]);
    }
    TrimLeavesTrimmed(id);
  }

  /** Leading white space is dropped one character at a time. */
  lemma TrimStartSkips(c: char, s: string)
    requires IsTrimmed(c)
    ensures TrimStart([c] + s) == TrimStart(s)
  {
    assert ([c] + s)[1..] == s;
  }

  /** Trailing white space is dropped one character at a time. */
  lemma TrimEndSkips(s: string, c: char)
    requires IsTrimmed(c)
    ensures TrimEnd(s + [c]) == TrimEnd(s)
  {
    assert (s + [c])[..|s|] == s;
  }

  /** Appending white space to `s` leaves the white space in front of it as
      it is: all of `s` when `s` is blank, and the same prefix otherwise. */
  lemma {:induction false} TrimStartAppend(s: string, c: char)
    requires IsTrimmed(c)
    ensures TrimStart(s + [c]) == if TrimStart(s) == [] then [] else TrimStart(s) + [c]
  {
    if s == [] {
      assert TrimStart([c]) == TrimStart([c][1..]);
    } else if IsTrimmed(s[0]) {
      assert (s + [c])[1..] == s[1..] + [c];
      TrimStartAppend(s[1..], c);
    }
  }

  /** The ID check sees only the trimmed input. */
  lemma CheckSeesOnlyTrimmed(input: string)
    ensures CheckId(input) == CheckId(Trim(input))
  {
    TrimIdempotent(input);
  }

  /** Inputs with the same trim get the same decision. */
  lemma SameTrimSameCheck(a: string, b: string)
    requires Trim(a) == Trim(b)
    ensures CheckId(a) == CheckId(b)
  {
  }

  /** White space in front of the input does not change the ID check's decision. */
  lemma LeadingSpaceIgnored(c: char, input: string)
    requires IsTrimmed(c)
    ensures CheckId([c] + input) == CheckId(input)
  {
    TrimStartSkips(c, input);
    SameTrimSameCheck([c] + input, input);
  }

  /** White space after the input does not change the ID check's decision. */
  lemma TrailingSpaceIgnored(input: string, c: char)
    requires IsTrimmed(c)
    ensures CheckId(input + [c]) == CheckId(input)
  {
    TrimStartAppend(input, c);
    if TrimStart(input) != [] {
      TrimEndSkips(TrimStart(input), c);
    }
    assert Trim(input + [c]) == Trim(input);
    SameTrimSameCheck(input + [c], input);
  }

  // ---------------------------------------------------------------------------
  // Game state
  // ---------------------------------------------------------------------------

  /** A question row loaded from the CSV file. */
  type Question = Object

  /** What the round modal offers. */
  datatype ErrorAction = Reload | EndGame

  datatype Modal =
    | Hidden
    | IdEntry
    | RoundOffer(round: int)                    // start this round, or the practice session
    | QuestionsMissing(missing: int, action: ErrorAction)
    | Finished

  /** The game's globals: the participant, the ID error text, the round and
      session, this round's questions and position, the practice questions and
      position, the two counters, the input lock, whether a revealed card is on
      screen, the modal, and the messages sent to the server. */
  datatype GameState = GameState(
    participantId: string,
    idError: IdError,
    currentRound: int,
    isTestSession: bool,
    questionsThisRound: seq<Question>,
    questionIndexThisRound: int,
    testQuestions: seq<Question>,
    testQuestionIndex: int,
    leftCount: int,
    rightCount: int,
    inputLocked: bool,
    cardRevealed: bool,
    modal: Modal,
    sent: seq<Object>)

  /** `questionsByRound[r]` exists and is not empty. */
  predicate HasQuestions(byRound: map<int, seq<Question>>, r: int)
  {
    r in byRound && |byRound[r]| > 0
  }

  /** `handleGameOver`. */
  function GameOver(s: GameState): (r: GameState)
    ensures r.currentRound == 4 && r.inputLocked && !r.isTestSession && r.modal == Finished
    ensures r.participantId == s.participantId && r.sent == s.sent
  {
    s.(isTestSession := false, currentRound := 4, inputLocked := true, cardRevealed := false, modal := Finished)
  }

  /** `triggerNextPhaseModal`. */
  function NextPhase(s: GameState, byRound: map<int, seq<Question>>): (r: GameState)
    ensures s.currentRound == 0 && HasQuestions(byRound, 1) ==> r == s.(modal := RoundOffer(1))
    ensures s.currentRound == 0 && !HasQuestions(byRound, 1) ==> r == s.(modal := QuestionsMissing(1, Reload))
    ensures 0 < s.currentRound < 3 && HasQuestions(byRound, s.currentRound + 1) ==> r == s.(modal := RoundOffer(s.currentRound + 1))
    ensures 0 < s.currentRound < 3 && !HasQuestions(byRound, s.currentRound + 1) ==>
      r == s.(modal := QuestionsMissing(s.currentRound + 1, EndGame))
    ensures s.currentRound >= 3 ==> r == GameOver(s)
    ensures r.participantId == s.participantId && r.idError == s.idError
  {
    if s.currentRound == 0 then
      if HasQuestions(byRound, 1) then s.(modal := RoundOffer(1)) else s.(modal := QuestionsMissing(1, Reload))
    else if s.currentRound < 3 then
      var next := s.currentRound + 1;
      if HasQuestions(byRound, next) then s.(modal := RoundOffer(next)) else s.(modal := QuestionsMissing(next, EndGame))
    else GameOver(s)
  }

  /** `handleIdSubmit` for the text `input`. */
  function SubmitId(s: GameState, byRound: map<int, seq<Question>>, input: string): (r: GameState)
    // the error text is cleared exactly when the ID is accepted
    ensures r.idError == NoIdError <==> CheckId(input).Accepted?
    ensures !CheckId(input).Accepted? ==> r.participantId == s.participantId && r.modal == s.modal
  {
    match CheckId(input)
    case EmptyId => s.(idError := MissingId)
    case InvalidCharacters => s.(idError := BadCharacters)
    case Accepted(id) => NextPhase(s.(participantId := id, idError := NoIdError, modal := Hidden), byRound)
  }

  /** The participant changes only on an accepted ID, and then to the trimmed input. */
  lemma ParticipantSetOnlyWhenAccepted(s: GameState, byRound: map<int, seq<Question>>, input: string)
    ensures var r := SubmitId(s, byRound, input);
      && (CheckId(input).Accepted? ==> r.participantId == Trim(input) && r.idError == NoIdError)
      && (CheckId(input) == EmptyId ==> r == s.(idError := MissingId))
      && (CheckId(input) == InvalidCharacters ==> r == s.(idError := BadCharacters))
  {
    match CheckId(input)
    case EmptyId =>
    case InvalidCharacters =>
    case Accepted(id) =>
      var t := s.(participantId := id, idError := NoIdError, modal := Hidden);
      assert NextPhase(t, byRound).participantId == id && NextPhase(t, byRound).idError == NoIdError;
  }

  datatype Prepared = Prepared(ok: bool, state: GameState)

  /** `prepareRoundQuestions(r)`, with `order` the shuffled copy of the round's questions. */
  function Prepare(s: GameState, byRound: map<int, seq<Question>>, perRound: nat, r: int, order: seq<Question>): (p: Prepared)
    ensures !p.ok ==> p.state.modal == QuestionsMissing(r, EndGame)
    ensures p.ok ==> p.state.questionIndexThisRound == 0 && |p.state.questionsThisRound| > 0
    // only the selection, the index and the modal may change
    ensures p.state == s.(questionsThisRound := p.state.questionsThisRound,
                          questionIndexThisRound := p.state.questionIndexThisRound, modal := p.state.modal)
  {
    if !HasQuestions(byRound, r) then Prepared(false, s.(modal := QuestionsMissing(r, EndGame)))
    else
      var chosen := order[..if |order| < perRound then |order| else perRound];
      if |chosen| == 0 then Prepared(false, s.(questionsThisRound := chosen, modal := QuestionsMissing(r, EndGame)))
      else Prepared(true, s.(questionsThisRound := chosen, questionIndexThisRound := 0))
  }

  /** Preparation fails exactly when the round has no questions or no question
      is asked per round; on success the round asks between one and
      `perRound` of the round's questions, as many as there are up to that
      bound, none twice, and nothing else changes but the index, reset to 0. */
  lemma PrepareSelectsBoundedSubset(s: GameState, byRound: map<int, seq<Question>>, perRound: nat, r: int, order: seq<Question>)
    requires r in byRound ==> multiset(order) == multiset(byRound[r])
    ensures var p := Prepare(s, byRound, perRound, r, order);
      && (!HasQuestions(byRound, r) ==> p == Prepared(false, s.(modal := QuestionsMissing(r, EndGame))))
      && (p.ok <==> HasQuestions(byRound, r) && perRound > 0)
      && (p.ok ==>
            && 1 <= |p.state.questionsThisRound| <= perRound
            && |p.state.questionsThisRound| == (if |byRound[r]| < perRound then |byRound[r]| else perRound)
            && multiset(p.state.questionsThisRound) <= multiset(byRound[r])
            && p.state == s.(questionsThisRound := p.state.questionsThisRound, questionIndexThisRound := 0))
  {
    if HasQuestions(byRound, r) {
      var chosen := order[..if |order| < perRound then |order| else perRound];
      assert order == chosen + order[|chosen|..];
      assert |order| == |byRound[r]| by {
        assert |multiset(order)| == |multiset(byRound[r])|;
      }
    }
  }

  /** The `startRound` message for rounds after the first. */
  function StartRoundMessage(participant: string, r: int): (m: Object)
    ensures "event" in m && m["event"] == Str("startRound")
    ensures "round" in m && m["round"] == Num(r as real)
    ensures "participant" in m && m["participant"] == Str(participant)
  {
    map["action" := Str("logStatus"), "event" := Str("startRound"), "participant" := Str(participant), "round" := Num(r as real)]
  }

  /** `startRound(r)`. */
  function BeginRound(s: GameState, byRound: map<int, seq<Question>>, perRound: nat, r: int, order: seq<Question>): (t: GameState)
    ensures !t.isTestSession
    ensures t.participantId == s.participantId && t.testQuestions == s.testQuestions
  {
    var p := Prepare(s.(isTestSession := false, modal := Hidden), byRound, perRound, r, order);
    if !p.ok then p.state else Launch(p.state, r)
  }

  /** The part of `startRound(r)` after its questions are prepared. */
  function Launch(u: GameState, r: int): (t: GameState)
    ensures t.currentRound == r && t.questionIndexThisRound == 0 && t.leftCount == 0 && t.rightCount == 0
    ensures !t.inputLocked && !t.cardRevealed
    ensures t.questionsThisRound == u.questionsThisRound && t.participantId == u.participantId
    // one startRound message, for rounds after the first only
    ensures r > 1 ==> t.sent == u.sent + [StartRoundMessage(u.participantId, r)]
    ensures r <= 1 ==> t.sent == u.sent
  {
    var v := u.(currentRound := r, questionIndexThisRound := 0, leftCount := 0, rightCount := 0,
                inputLocked := false, cardRevealed := false);
    if r > 1 then v.(sent := v.sent + [StartRoundMessage(v.participantId, r)]) else v
  }

  /** A failed preparation stops `startRound` before the round and the
      counters change; a successful one starts round `r` with zeroed counters,
      unlocked input, the prepared questions, and a message to the server only
      for rounds after the first. */
  lemma StartRoundOutcome(s: GameState, byRound: map<int, seq<Question>>, perRound: nat, r: int, order: seq<Question>)
    ensures var p := Prepare(s.(isTestSession := false, modal := Hidden), byRound, perRound, r, order);
      var t := BeginRound(s, byRound, perRound, r, order);
      && (!p.ok ==>
            && t.currentRound == s.currentRound && t.leftCount == s.leftCount && t.rightCount == s.rightCount
            && t.inputLocked == s.inputLocked && t.sent == s.sent && !t.isTestSession)
      && (p.ok ==>
            && t.currentRound == r && t.questionIndexThisRound == 0 && t.leftCount == 0 && t.rightCount == 0
            && !t.inputLocked && !t.isTestSession && t.modal == Hidden && !t.cardRevealed
            && t.questionsThisRound == p.state.questionsThisRound
            && t.sent == s.sent + (if r > 1 then [StartRoundMessage(s.participantId, r)] else []))
  {
  }

  /** `startTestSession`, with `order` the shuffled practice questions. */
  function BeginTest(s: GameState, order: seq<Question>): (t: GameState)
    ensures s.testQuestions == [] ==> t == s
    ensures s.testQuestions != [] ==> t.isTestSession && t.questionsThisRound == order && t.testQuestions == order
    ensures t.currentRound == s.currentRound && t.participantId == s.participantId && t.sent == s.sent
  {
    if s.testQuestions == [] then s
    else s.(modal := Hidden, isTestSession := true, testQuestionIndex := 0, testQuestions := order,
            leftCount := 0, rightCount := 0, inputLocked := false, cardRevealed := false,
            questionsThisRound := order, questionIndexThisRound := 0)
  }

  /** Without practice questions nothing changes; otherwise the practice
      session starts from its first question with zeroed counters, reveals
      come from the reshuffled practice questions, and the round is kept. */
  lemma StartTestOutcome(s: GameState, order: seq<Question>)
    requires multiset(order) == multiset(s.testQuestions)
    ensures s.testQuestions == [] ==> BeginTest(s, order) == s
    ensures var t := BeginTest(s, order);
      s.testQuestions != [] ==>
      && t.isTestSession && t.testQuestionIndex == 0 && t.questionIndexThisRound == 0
      && t.leftCount == 0 && t.rightCount == 0 && !t.inputLocked
      && t.questionsThisRound == t.testQuestions && multiset(t.testQuestions) == multiset(s.testQuestions)
      && t.currentRound == s.currentRound && t.sent == s.sent
  {
  }

  /** The rounds run 1, 2, 3 and then the game ends: after round `r` of the
      first three the next prompt offers round `r + 1`, and after round 3 the
      game is over. */
  lemma RoundsAdvanceToGameOver(s: GameState, byRound: map<int, seq<Question>>, perRound: nat, r: int, order: seq<Question>)
    requires 1 <= r <= 3 && HasQuestions(byRound, r) && perRound > 0
    requires multiset(order) == multiset(byRound[r])
    requires r < 3 ==> HasQuestions(byRound, r + 1)
    ensures var after := NextPhase(BeginRound(s, byRound, perRound, r, order), byRound);
      && (r < 3 ==> after.modal == RoundOffer(r + 1))
      && (r == 3 ==> after.currentRound == 4 && after.inputLocked && after.modal == Finished)
  {
    PrepareSelectsBoundedSubset(s.(isTestSession := false, modal := Hidden), byRound, perRound, r, order);
  }

  /** The state of a freshly loaded game waiting for the participant ID. The
      globals are declared outside this model; these are their start values. */
  function InitialGame(tests: seq<Question>): (s: GameState)
    ensures s.currentRound == 0 && s.modal == IdEntry && s.participantId == "" && s.idError == NoIdError
    ensures !s.isTestSession && !s.inputLocked && s.sent == [] && s.testQuestions == tests
  {
    GameState("", NoIdError, 0, false, [], 0, tests, 0, 0, 0, false, false, IdEntry, [])
  }

  class Game {
    /** `questionsByRound` and `QUESTIONS_PER_ROUND`, fixed once loaded. */
    const questionsByRound: map<int, seq<Question>>
    const questionsPerRound: nat

    var participantId: string
    var idError: IdError
    var currentRound: int
    var isTestSession: bool
    var questionsThisRound: seq<Question>
    var questionIndexThisRound: int
    var testQuestions: seq<Question>
    var testQuestionIndex: int
    var leftCount: int
    var rightCount: int
    var inputLocked: bool
    var cardRevealed: bool
    var modal: Modal
    var sent: seq<Object>

    function State(): GameState
      reads this
    {
      GameState(participantId, idError, currentRound, isTestSession, questionsThisRound, questionIndexThisRound,
                testQuestions, testQuestionIndex, leftCount, rightCount, inputLocked, cardRevealed, modal, sent)
    }

    constructor (byRound: map<int, seq<Question>>, perRound: nat, tests: seq<Question>)
      ensures questionsByRound == byRound && questionsPerRound == perRound
      ensures State() == InitialGame(tests)
    {
      questionsByRound, questionsPerRound := byRound, perRound;
      participantId, idError, currentRound, isTestSession := "", NoIdError, 0, false;
      questionsThisRound, questionIndexThisRound := [], 0;
      testQuestions, testQuestionIndex := tests, 0;
      leftCount, rightCount, inputLocked, cardRevealed := 0, 0, false, false;
      modal, sent := IdEntry, [];
    }

    /** `handleIdSubmit` with `input` the text of the ID field. */
    method HandleIdSubmit(input: string)
      modifies this
      ensures State() == SubmitId(old(State()), questionsByRound, input)
    {
      ghost var s0 := old(State());
      var enteredId := Trim(input);
      if enteredId == "" {
        assert CheckId(input) == EmptyId;
        idError := MissingId;
        return;
      }
      if exists i :: 0 <= i < |enteredId| && !IdChar(enteredId[i]) {
        assert CheckId(input) == InvalidCharacters;
        idError := BadCharacters;
        return;
      }
      assert CheckId(input) == Accepted(enteredId);
      participantId := enteredId;
      idError := NoIdError;
      modal := Hidden;
      assert State() == s0.(participantId := enteredId, idError := NoIdError, modal := Hidden);
      TriggerNextPhaseModal();
    }

    /** `triggerNextPhaseModal`. */
    method TriggerNextPhaseModal()
      modifies this
      ensures State() == NextPhase(old(State()), questionsByRound)
    {
      if currentRound == 0 {
        if !(1 in questionsByRound) || |questionsByRound[1]| == 0 {
          modal := QuestionsMissing(1, Reload);
        } else {
          modal := RoundOffer(1);
        }
      } else if currentRound < 3 {
        var nextRound := currentRound + 1;
        if !(nextRound in questionsByRound) || |questionsByRound[nextRound]| == 0 {
          modal := QuestionsMissing(nextRound, EndGame);
        } else {
          modal := RoundOffer(nextRound);
        }
      } else {
        HandleGameOver();
      }
    }

    /** `prepareRoundQuestions(r)`, with `order` the shuffled copy of the round's questions. */
    method PrepareRoundQuestions(r: int, order: seq<Question>) returns (ok: bool)
      requires r in questionsByRound ==> multiset(order) == multiset(questionsByRound[r])
      modifies this
      ensures var p := Prepare(old(State()), questionsByRound, questionsPerRound, r, order);
        State() == p.state && ok == p.ok
    {
      if !(r in questionsByRound) || |questionsByRound[r]| == 0 {
        modal := QuestionsMissing(r, EndGame);
        return false;
      }
      questionsThisRound := order[..if |order| < questionsPerRound then |order| else questionsPerRound];
      if |questionsThisRound| == 0 {
        modal := QuestionsMissing(r, EndGame);
        return false;
      }
      questionIndexThisRound := 0;
      return true;
    }

    /** `startRound(r)`, with `order` the shuffled copy of the round's questions. */
    method StartRound(r: int, order: seq<Question>)
      requires r in questionsByRound ==> multiset(order) == multiset(questionsByRound[r])
      modifies this
      ensures State() == BeginRound(old(State()), questionsByRound, questionsPerRound, r, order)
    {
      isTestSession := false;
      modal := Hidden;
      var ok := PrepareRoundQuestions(r, order);
      if ok {
        LaunchRound(r);
      }
    }

    /** The steps of `startRound(r)` after a successful preparation. */
    method LaunchRound(r: int)
      modifies this
      ensures State() == Launch(old(State()), r)
    {
      ghost var u := State();
      currentRound := r;
      questionIndexThisRound := 0;
      leftCount := 0;
      rightCount := 0;
      inputLocked := false;
      cardRevealed := false;
      ghost var v := State();
      assert v == u.(currentRound := r, questionIndexThisRound := 0, leftCount := 0, rightCount := 0,
                     inputLocked := false, cardRevealed := false);
      if r > 1 {
        var m := StartRoundMessage(participantId, r);
        sent := sent + [m];
        assert State() == v.(sent := v.sent + [m]);
      }
    }

    /** `startTestSession`, with `order` the shuffled practice questions. */
    method StartTestSession(order: seq<Question>)
      requires multiset(order) == multiset(testQuestions)
      modifies this
      ensures State() == BeginTest(old(State()), order)
    {
      ghost var s0 := old(State());
      if |testQuestions| == 0 {
        return;
      }
      modal := Hidden;
      isTestSession := true;
      testQuestionIndex := 0;
      testQuestions := order;
      leftCount := 0;
      rightCount := 0;
      inputLocked := false;
      cardRevealed := false;
      questionsThisRound := testQuestions;
      questionIndexThisRound := 0;
      assert State() == s0.(modal := Hidden, isTestSession := true, testQuestionIndex := 0, testQuestions := order,
        leftCount := 0, rightCount := 0, inputLocked := false, cardRevealed := false,
        questionsThisRound := order, questionIndexThisRound := 0);
    }

    /** `handleGameOver`. */
    method HandleGameOver()
      modifies this
      ensures State() == GameOver(old(State()))
    {
      isTestSession := false;
      currentRound := 4;
      inputLocked := true;
      modal := Hidden;
      cardRevealed := false;
      modal := Finished;
    }
  }
}
