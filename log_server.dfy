/** The logging server: it assembles one record per card from the `cardReveal`,
    `cardDropped` and `RobotsMove` events, and maps each complete record to a
    CSV row before forgetting it. */
module LogServer {
  import opened Values

  /** The CSV columns. */
  datatype Column =
    | TimestampColumn | ParticipantColumn | CardIdColumn | QuestionColumn
    | DifficultyColumn | CorrectAnswerColumn | CorrectSideColumn
    | SideChoiceColumn | RobotColumn | GazeDecisionColumn | MoveDurationColumn

  /** The columns in file order. */
  const CsvHeader: seq<Column> := [
    TimestampColumn, ParticipantColumn, CardIdColumn, QuestionColumn,
    DifficultyColumn, CorrectAnswerColumn, CorrectSideColumn,
    SideChoiceColumn, RobotColumn, GazeDecisionColumn, MoveDurationColumn]

  /** The header text of a column. */
  function Name(c: Column): string
  {
    match c
    case TimestampColumn => "timestamp"
    case ParticipantColumn => "participant"
    case CardIdColumn => "cardId"
    case QuestionColumn => "question"
    case DifficultyColumn => "difficulty"
    case CorrectAnswerColumn => "correct_answer"
    case CorrectSideColumn => "correct_side"
    case SideChoiceColumn => "participants_side_choice"
    case RobotColumn => "Robot"
    case GazeDecisionColumn => "gazeDecision"
    case MoveDurationColumn => "move_duration"
  }

  /** The header lists every column, each once. */
  lemma HeaderListsEveryColumn()
    ensures forall c: Column :: c in CsvHeader
    ensures forall i, j :: 0 <= i < j < |CsvHeader| ==> CsvHeader[i] != CsvHeader[j]
  {
    forall c: Column ensures c in CsvHeader {
      match c
      case TimestampColumn => assert CsvHeader[0] == c;
      case ParticipantColumn => assert CsvHeader[1] == c;
      case CardIdColumn => assert CsvHeader[2] == c;
      case QuestionColumn => assert CsvHeader[3] == c;
      case DifficultyColumn => assert CsvHeader[4] == c;
      case CorrectAnswerColumn => assert CsvHeader[5] == c;
      case CorrectSideColumn => assert CsvHeader[6] == c;
      case SideChoiceColumn => assert CsvHeader[7] == c;
      case RobotColumn => assert CsvHeader[8] == c;
      case GazeDecisionColumn => assert CsvHeader[9] == c;
      case MoveDurationColumn => assert CsvHeader[10] == c;
    }
  }

  /** The internal keys a record needs before it is written. */
  const Required: seq<string> := [
    "cardId", "side", "answer", "question", "difficulty", "side_choice_raw", "Robot", "gazeDecision"]

  /** `card_records`: partial records by card id. */
  type Records = map<Value, Object>

  /** A CSV row: column to cell. */
  type Row = map<Column, Value>

  /** `record_complete`. */
  function RecordComplete(rec: Object): (complete: bool)
    ensures complete <==>
      && "cardId" in rec && "side" in rec && "answer" in rec && "question" in rec
      && "difficulty" in rec && "side_choice_raw" in rec && "Robot" in rec && "gazeDecision" in rec
  {
    forall k :: k in Required ==> k in rec
  }

  // ---------------------------------------------------------------------------
  // Column mapping
  // ---------------------------------------------------------------------------

  /** `isinstance(v, (int, float))`; Python booleans are integers. */
  predicate IsNumeric(v: Value)
  {
    v.Num? || v.Bool?
  }

  function NumericValue(v: Value): real
    requires IsNumeric(v)
  {
    match v
    case Num(n) => n
    case Bool(b) => if b then 1.0 else 0.0
  }

  /** The move duration after the Carl adjustment: two seconds less when the
      robot is "Carl condition" and the duration is numeric, unchanged otherwise. */
  function FinalDuration(rec: Object): (d: Value)
    ensures Get(rec, "Robot") == Str("Carl condition") && IsNumeric(Get(rec, "move_duration")) ==>
      d == Num(NumericValue(Get(rec, "move_duration")) - 2.0)
    ensures Get(rec, "Robot") != Str("Carl condition") || !IsNumeric(Get(rec, "move_duration")) ==>
      d == Get(rec, "move_duration")
  {
    var original := Get(rec, "move_duration");
    if Get(rec, "Robot") == Str("Carl condition") && IsNumeric(original) then Num(NumericValue(original) - 2.0)
    else original
  }

  /** The internal key that a column other than the timestamp and the
      duration is read from: three columns are renamed, the others keep their
      header text. */
  function SourceKey(column: Column): (key: string)
    ensures column == CorrectAnswerColumn ==> key == "answer"
    ensures column == SideChoiceColumn ==> key == "side_choice_raw"
    ensures column == CorrectSideColumn ==> key == "side"
    ensures column !in {CorrectAnswerColumn, SideChoiceColumn, CorrectSideColumn} ==> key == Name(column)
  {
    match column
    case CorrectAnswerColumn => "answer"
    case SideChoiceColumn => "side_choice_raw"
    case CorrectSideColumn => "side"
    case _ => Name(column)
  }

  /** The duration cell: the number when numeric, blank otherwise. */
  function DurationCell(d: Value): (cell: Value)
    ensures IsNumeric(d) ==> cell.Num?
    ensures !IsNumeric(d) ==> cell == Str("")
  {
    if IsNumeric(d) then Num(NumericValue(d)) else Str("")
  }

  /** The cell of `column` for `rec`, whose arrival time is `stamp`. */
  function Cell(rec: Object, column: Column, stamp: Value): (cell: Value)
    ensures column == TimestampColumn ==> cell == stamp
    ensures column == MoveDurationColumn ==> cell == DurationCell(FinalDuration(rec))
    // every other column copies its source key, and a missing key is blank
    ensures column != TimestampColumn && column != MoveDurationColumn ==>
      if SourceKey(column) in rec then cell == rec[SourceKey(column)] else cell == Str("")
  {
    match column
    case TimestampColumn => stamp
    case MoveDurationColumn => DurationCell(FinalDuration(rec))
    case _ => GetOr(rec, SourceKey(column), Str(""))
  }

  /** The arrival time written in the `timestamp` column; the current time `now`
      when the record has none. */
  function Stamp(rec: Object, now: int): (stamp: Value)
    ensures "event_arrival_timestamp" in rec ==> stamp == rec["event_arrival_timestamp"]
    ensures "event_arrival_timestamp" !in rec ==> stamp == Time(now)
  {
    GetOr(rec, "event_arrival_timestamp", Time(now))
  }

  /** The row `write_combined_record` builds, or None when formatting the
      arrival time raises because it is not a datetime. */
  function CombinedRow(rec: Object, now: int): (row: Option<Row>)
    ensures row.Some? <==> Stamp(rec, now).Time?
    ensures row.Some? ==> forall c :: c in row.value && row.value[c] == Cell(rec, c, Stamp(rec, now))
  {
    var stamp := Stamp(rec, now);
    HeaderListsEveryColumn();
    if stamp.Time? then Some(map c: Column | c in CsvHeader :: Cell(rec, c, stamp)) else None
  }

  /** The three renamed columns read `answer`, `side_choice_raw` and `side`, and
      a missing key becomes the empty string. */
  lemma CombinedRowRenames(rec: Object, now: int)
    requires Stamp(rec, now).Time?
    ensures var row := CombinedRow(rec, now).value;
      && row[CorrectAnswerColumn] == GetOr(rec, "answer", Str(""))
      && row[SideChoiceColumn] == GetOr(rec, "side_choice_raw", Str(""))
      && row[CorrectSideColumn] == GetOr(rec, "side", Str(""))
  {
  }

  /** The timestamp column holds the arrival time, every column that is not
      renamed reads the key of its own header name, and a non-numeric duration
      is left blank. */
  lemma CombinedRowColumns(rec: Object, now: int, t: int)
    requires Stamp(rec, now) == Time(t)
    ensures CombinedRow(rec, now).value[TimestampColumn] == Time(t)
    ensures forall c :: c !in {TimestampColumn, MoveDurationColumn, CorrectAnswerColumn, SideChoiceColumn, CorrectSideColumn} ==>
      CombinedRow(rec, now).value[c] == GetOr(rec, Name(c), Str(""))
    ensures !IsNumeric(FinalDuration(rec)) ==> CombinedRow(rec, now).value[MoveDurationColumn] == Str("")
  {
  }

  /** The Carl adjustment as it reaches the file: two seconds off a numeric
      duration under Carl, the duration itself under any other robot. */
  lemma CarlDurationAdjusted(rec: Object, now: int, d: real)
    requires Stamp(rec, now).Time? && Get(rec, "move_duration") == Num(d)
    ensures var row := CombinedRow(rec, now).value;
      && (Get(rec, "Robot") == Str("Carl condition") ==> row[MoveDurationColumn] == Num(d - 2.0))
      && (Get(rec, "Robot") != Str("Carl condition") ==> row[MoveDurationColumn] == Num(d))
  {
  }

  /** `write_combined_record` without the file append: the row, built column by
      column. */
  method WriteCombinedRecord(rec: Object, now: int) returns (row: Option<Row>)
    ensures row == CombinedRow(rec, now)
  {
    var stamp := if "event_arrival_timestamp" in rec then rec["event_arrival_timestamp"] else Time(now);
    if !stamp.Time? {
      return None;
    }
    var robot := Get(rec, "Robot");
    var original := Get(rec, "move_duration");
    var final := original;
    if robot == Str("Carl condition") && IsNumeric(original) {
      final := Num(NumericValue(original) - 2.0);
    }
    assert stamp == Stamp(rec, now) && final == FinalDuration(rec);
    var filtered: Row := map[];
    var i := 0;
    while i < |CsvHeader|
      invariant 0 <= i <= |CsvHeader|
      invariant forall c :: c in filtered <==> c in CsvHeader[..i]
      invariant forall c :: c in filtered ==> filtered[c] == Cell(rec, c, stamp)
    {
      var column := CsvHeader[i];
      var cell: Value;
      if column == TimestampColumn {
        cell := stamp;
      } else if column == CorrectAnswerColumn {
        cell := GetOr(rec, "answer", Str(""));
      } else if column == SideChoiceColumn {
        cell := GetOr(rec, "side_choice_raw", Str(""));
      } else if column == MoveDurationColumn {
        cell := if IsNumeric(final) then Num(NumericValue(final)) else Str("");
      } else if column == CorrectSideColumn {
        cell := GetOr(rec, "side", Str(""));
      } else {
        cell := GetOr(rec, Name(column), Str(""));
      }
      assert cell == Cell(rec, column, stamp);
      assert CsvHeader[..i + 1] == CsvHeader[..i] + [column];
      filtered := filtered[column := cell];
      i := i + 1;
    }
    assert CsvHeader[..i] == CsvHeader;
    assert filtered == map c: Column | c in CsvHeader :: Cell(rec, c, stamp);
    row := Some(filtered);
  }

  // ---------------------------------------------------------------------------
  // The message handler
  // ---------------------------------------------------------------------------

  /** The replies the handler sends back to the sender. */
  datatype Reply =
    | RevealProcessed          // "cardReveal processed, stored, and forwarded"
    | MissingCardId(event: string)  // status "error", "<event> missing cardId"
    | CombinedLogged           // "combined record logged"
    | Waiting(stored: Value)   // "<event> stored; waiting for additional info"

  /** What one message does: the new `card_records`, the row written (if any),
      the reply (if any), whether the message is relayed to the other clients,
      and whether processing stopped on an exception. */
  datatype Outcome = Outcome(records: Records, written: Option<Row>, reply: Option<Reply>, relayed: bool, failed: bool)

  /** The steps before the event dispatch: a card id creates its record if it
      has none, and stamps it with the participant and the arrival time. */
  function Prelude(records: Records, data: Object, now: int): (r: Records)
    ensures !Truthy(Get(data, "cardId")) ==> r == records
    ensures Truthy(Get(data, "cardId")) ==>
      && r.Keys == records.Keys + {Get(data, "cardId")}
      && "event_arrival_timestamp" in r[Get(data, "cardId")]
      && r[Get(data, "cardId")]["event_arrival_timestamp"] == Time(now)
      && (Truthy(GetOr(data, "participant", Str(""))) ==>
            "participant" in r[Get(data, "cardId")] && r[Get(data, "cardId")]["participant"] == GetOr(data, "participant", Str("")))
    ensures forall id :: id in records && id != Get(data, "cardId") ==> id in r && r[id] == records[id]
  {
    var cardId := Get(data, "cardId");
    if !Truthy(cardId) then records
    else
      var created := if cardId in records then records[cardId] else map[];
      var participant := GetOr(data, "participant", Str(""));
      var named := if Truthy(participant) then created["participant" := participant] else created;
      records[cardId := named["event_arrival_timestamp" := Time(now)]]
  }

  /** Where the event dispatch leaves a message: finished, or on to the
      completion check with the records so far and whether it was relayed. */
  datatype Dispatched = Done(outcome: Outcome) | Check(records: Records, relayed: bool)

  /** The record a drop merges: the data, with `side_choice` copied to `side_choice_raw`. */
  function DropMerge(rec: Object, data: Object): (merged: Object)
    ensures "side_choice_raw" in merged && merged["side_choice_raw"] == Get(data, "side_choice")
    // `dict.update`: the message's fields win, the record's other fields stay
    ensures merged.Keys == rec.Keys + data.Keys + {"side_choice_raw"}
    ensures forall k :: k in data && k != "side_choice_raw" ==> merged[k] == data[k]
    ensures forall k :: k in rec && k !in data && k != "side_choice_raw" ==> merged[k] == rec[k]
  {
    rec + data["side_choice_raw" := Get(data, "side_choice")]
  }

  /** The event-specific part of the handler, after the prelude (so a truthy
      card id always has a record). */
  function Dispatch(records: Records, data: Object, now: int): (r: Dispatched)
    requires Truthy(Get(data, "cardId")) ==> Get(data, "cardId") in records
    // a reveal, a drop or a robot move without a card id is answered with an error and changes nothing
    ensures !Truthy(Get(data, "cardId")) && Get(data, "event") in {Str("cardReveal"), Str("cardDropped"), Str("RobotsMove")} ==>
      r == Done(Outcome(records, None, Some(MissingCardId(Get(data, "event").s)), false, false))
    // a reveal never reaches the completion check
    ensures Get(data, "event") == Str("cardReveal") ==> r.Done? && r.outcome.written.None?
    ensures r.Check? ==> r.records.Keys == records.Keys
  {
    var cardId := Get(data, "cardId");
    var event := Get(data, "event");
    if event == Str("cardReveal") then
      if Truthy(cardId) then
        var d := data["side" := Get(data, "side")]["answer" := Get(data, "answer")];
        var rec := records[cardId]["reveal_timestamp" := Time(now)] + d;
        Done(Outcome(records[cardId := rec], None, Some(RevealProcessed), true, false))
      else Done(Outcome(records, None, Some(MissingCardId("cardReveal")), false, false))
    else if event == Str("cardDropped") then
      if Truthy(cardId) then
        var rec := DropMerge(records[cardId], data);
        var revealed := Get(rec, "reveal_timestamp");
        if !Truthy(revealed) then Check(records[cardId := rec["move_duration" := Null]], true)
        else if revealed.Time? then
          Check(records[cardId := rec["move_duration" := Num((now - revealed.ms) as real / 1000.0)]], true)
        else Done(Outcome(records[cardId := rec], None, None, false, true))
      else Done(Outcome(records, None, Some(MissingCardId("cardDropped")), false, false))
    else if event == Str("RobotsMove") then
      if Truthy(cardId) then Check(records[cardId := records[cardId] + data], false)
      else Done(Outcome(records, None, Some(MissingCardId("RobotsMove")), false, false))
    else Check(records, false)
  }

  /** The completion check, for a message with card id `cardId` and event `event`. */
  function Completion(records: Records, cardId: Value, event: Value, now: int, relayed: bool): (r: Outcome)
    // a complete record whose row can be built is written and forgotten
    ensures r.written.Some? <==>
      Truthy(cardId) && cardId in records && RecordComplete(records[cardId]) && Stamp(records[cardId], now).Time?
    ensures r.written.Some? ==> r.written == CombinedRow(records[cardId], now) && r.records == records - {cardId}
    ensures r.written.None? ==> r.records == records
    // with no record to check, the message is broadcast
    ensures !(Truthy(cardId) && cardId in records) ==> r == Outcome(records, None, None, true, false)
  {
    if Truthy(cardId) && cardId in records then
      if RecordComplete(records[cardId]) then
        match CombinedRow(records[cardId], now)
        case None => Outcome(records, None, None, relayed, true)
        case Some(row) => Outcome(records - {cardId}, Some(row), if event != Str("cardReveal") then Some(CombinedLogged) else None, relayed, false)
      else Outcome(records, None, if event != Str("cardReveal") then Some(Waiting(event)) else None, relayed, false)
    else Outcome(records, None, None, true, false)
  }

  /** The handler's processing of one parsed message `data` arriving at `now`. */
  function Handle(records: Records, data: Object, now: int): (r: Outcome)
    // a row is only ever written for the message's own card, which is then forgotten
    ensures r.written.Some? ==> Get(data, "cardId") !in r.records
    ensures forall id :: id in records && id != Get(data, "cardId") ==> id in r.records && r.records[id] == records[id]
  {
    var prepared := Prelude(records, data, now);
    match Dispatch(prepared, data, now)
    case Done(outcome) => outcome
    case Check(checked, relayed) => Completion(checked, Get(data, "cardId"), Get(data, "event"), now, relayed)
  }

  /** A reveal stores its timestamp and data, is relayed and acknowledged, and
      never writes a row. */
  lemma RevealStoresAndNeverWrites(records: Records, data: Object, now: int)
    requires Get(data, "event") == Str("cardReveal") && Truthy(Get(data, "cardId"))
    ensures var r := Handle(records, data, now);
      var id := Get(data, "cardId");
      && r.written.None? && r.reply == Some(RevealProcessed) && r.relayed
      && id in r.records
      && ("reveal_timestamp" !in data ==> r.records[id]["reveal_timestamp"] == Time(now))
      && r.records[id]["side"] == Get(data, "side") && r.records[id]["answer"] == Get(data, "answer")
  {
  }

  /** A drop for a card stores the time from reveal to drop in seconds, or None
      when the card was never revealed. */
  lemma DropStoresMoveDuration(records: Records, data: Object, now: int)
    requires Get(data, "event") == Str("cardDropped") && Truthy(Get(data, "cardId"))
    ensures var id := Get(data, "cardId");
      var prepared := Prelude(records, data, now);
      var revealed := Get(DropMerge(prepared[id], data), "reveal_timestamp");
      var r := Dispatch(prepared, data, now);
      && (revealed.Time? ==> r.Check? && r.records[id]["move_duration"] == Num((now - revealed.ms) as real / 1000.0))
      && (!Truthy(revealed) ==> r.Check? && r.records[id]["move_duration"] == Null)
  {
  }

  /** A reveal, a drop or a robot move without a card id is answered with an
      error and leaves the records unchanged. */
  lemma MissingCardIdRejected(records: Records, data: Object, now: int)
    requires !Truthy(Get(data, "cardId"))
    requires Get(data, "event") in {Str("cardReveal"), Str("cardDropped"), Str("RobotsMove")}
    ensures Handle(records, data, now) == Outcome(records, None, Some(MissingCardId(Get(data, "event").s)), false, false)
  {
  }

  /** A robot move that completes its card's record writes it, removes it from
      the records, and is answered with "combined record logged". */
  lemma CompleteRecordWrittenOnce(records: Records, data: Object, now: int)
    requires Get(data, "event") == Str("RobotsMove") && Truthy(Get(data, "cardId"))
    requires "event_arrival_timestamp" !in data || Get(data, "event_arrival_timestamp").Time?
    requires var id := Get(data, "cardId"); RecordComplete(Prelude(records, data, now)[id] + data)
    ensures var r := Handle(records, data, now);
      && r.written.Some? && r.reply == Some(CombinedLogged)
      && r.records == records - {Get(data, "cardId")}
  {
    var id := Get(data, "cardId");
    var prepared := Prelude(records, data, now);
    assert prepared - {id} == records - {id};
  }

  /** Any other event with a card id goes through the completion check too and
      is never broadcast. */
  lemma OtherEventWithCardIdNotBroadcast(records: Records, data: Object, now: int)
    requires Truthy(Get(data, "cardId"))
    requires Get(data, "event") !in {Str("cardReveal"), Str("cardDropped"), Str("RobotsMove")}
    ensures !Handle(records, data, now).relayed
  {
  }

  /** A message with neither a card id nor one of the three card events is
      broadcast and changes nothing. */
  lemma OtherMessageBroadcast(records: Records, data: Object, now: int)
    requires !Truthy(Get(data, "cardId"))
    requires Get(data, "event") !in {Str("cardReveal"), Str("cardDropped"), Str("RobotsMove")}
    ensures Handle(records, data, now) == Outcome(records, None, None, true, false)
  {
  }

  // ---------------------------------------------------------------------------
  // The server's state
  // ---------------------------------------------------------------------------

  class Server {
    var cardRecords: Records
    /** The rows appended to the CSV file, in order. */
    var csvRows: seq<Row>

    constructor ()
      ensures cardRecords == map[] && csvRows == []
    {
      cardRecords, csvRows := map[], [];
    }

    /** One iteration of the handler's message loop for the parsed message `data`. */
    method HandleMessage(data: Object, now: int) returns (reply: Option<Reply>, relayed: bool, failed: bool)
      modifies this
      ensures var r := Handle(old(cardRecords), data, now);
        && cardRecords == r.records
        && csvRows == old(csvRows) + (if r.written.Some? then [r.written.value] else [])
        && reply == r.reply && relayed == r.relayed && failed == r.failed
    {
      var cardId := Get(data, "cardId");
      var event := Get(data, "event");
      Prepare(data, now);
      ghost var prepared := cardRecords;
      reply, relayed, failed := None, false, false;
      if event == Str("cardReveal") {
        reply := RevealMessage(data, now);
        relayed := reply == Some(RevealProcessed);
        return;
      } else if event == Str("cardDropped") {
        var proceeds;
        proceeds, relayed, failed := DropMessage(data, now);
        if !proceeds {
          reply := if Truthy(cardId) then None else Some(MissingCardId("cardDropped"));
          return;
        }
      } else if event == Str("RobotsMove") {
        if Truthy(cardId) {
          cardRecords := cardRecords[cardId := cardRecords[cardId] + data];
        } else {
          reply := Some(MissingCardId("RobotsMove"));
          return;
        }
      }
      assert Dispatch(prepared, data, now) == Check(cardRecords, relayed);
      reply, relayed, failed := CheckCompletion(cardId, event, now, relayed);
    }

    /** The steps before the event dispatch. */
    method Prepare(data: Object, now: int)
      modifies this
      ensures cardRecords == Prelude(old(cardRecords), data, now) && csvRows == old(csvRows)
    {
      var cardId := Get(data, "cardId");
      var participant := GetOr(data, "participant", Str(""));
      if Truthy(cardId) && cardId !in cardRecords {
        cardRecords := cardRecords[cardId := map[]];
      }
      if Truthy(cardId) && Truthy(participant) {
        cardRecords := cardRecords[cardId := cardRecords[cardId]["participant" := participant]];
      }
      if Truthy(cardId) {
        cardRecords := cardRecords[cardId := cardRecords[cardId]["event_arrival_timestamp" := Time(now)]];
      }
    }

    /** The `cardReveal` branch, after the prelude. */
    method RevealMessage(data: Object, now: int) returns (reply: Option<Reply>)
      requires Get(data, "event") == Str("cardReveal")
      requires Truthy(Get(data, "cardId")) ==> Get(data, "cardId") in cardRecords
      modifies this
      ensures var r := Dispatch(old(cardRecords), data, now).outcome;
        cardRecords == r.records && reply == r.reply && csvRows == old(csvRows)
    {
      var cardId := Get(data, "cardId");
      if Truthy(cardId) {
        var rec := cardRecords[cardId]["reveal_timestamp" := Time(now)];
        var d := data["side" := Get(data, "side")];
        d := d["answer" := Get(data, "answer")];
        cardRecords := cardRecords[cardId := rec + d];
        reply := Some(RevealProcessed);
      } else {
        reply := Some(MissingCardId("cardReveal"));
      }
    }

    /** The `cardDropped` branch, after the prelude; `proceeds` says whether the
        completion check follows. */
    method DropMessage(data: Object, now: int) returns (proceeds: bool, relayed: bool, failed: bool)
      requires Get(data, "event") == Str("cardDropped")
      requires Truthy(Get(data, "cardId")) ==> Get(data, "cardId") in cardRecords
      modifies this
      ensures var r := Dispatch(old(cardRecords), data, now);
        && proceeds == r.Check?
        && (r.Check? ==> cardRecords == r.records && relayed == r.relayed && !failed)
        && (r.Done? ==> cardRecords == r.outcome.records && relayed == r.outcome.relayed && failed == r.outcome.failed)
        && csvRows == old(csvRows)
    {
      var cardId := Get(data, "cardId");
      if !Truthy(cardId) {
        return false, false, false;
      }
      var d := data["side_choice_raw" := Get(data, "side_choice")];
      var rec := cardRecords[cardId] + d;
      var revealed := Get(rec, "reveal_timestamp");
      if Truthy(revealed) {
        if !revealed.Time? {
          cardRecords := cardRecords[cardId := rec];
          return false, false, true;
        }
        rec := rec["move_duration" := Num((now - revealed.ms) as real / 1000.0)];
      } else {
        rec := rec["move_duration" := Null];
      }
      cardRecords := cardRecords[cardId := rec];
      return true, true, false;
    }

    /** The completion check: a complete record is written and deleted. */
    method CheckCompletion(cardId: Value, event: Value, now: int, relayedBefore: bool) returns (reply: Option<Reply>, relayed: bool, failed: bool)
      modifies this
      ensures var r := Completion(old(cardRecords), cardId, event, now, relayedBefore);
        && cardRecords == r.records
        && csvRows == old(csvRows) + (if r.written.Some? then [r.written.value] else [])
        && reply == r.reply && relayed == r.relayed && failed == r.failed
    {
      reply, relayed, failed := None, relayedBefore, false;
      if Truthy(cardId) && cardId in cardRecords {
        if RecordComplete(cardRecords[cardId]) {
          var row := WriteCombinedRecord(cardRecords[cardId], now);
          if row.None? {
            failed := true;
            return;
          }
          csvRows := csvRows + [row.value];
          cardRecords := cardRecords - {cardId};
          if event != Str("cardReveal") {
            reply := Some(CombinedLogged);
          }
        } else if event != Str("cardReveal") {
          reply := Some(Waiting(event));
        }
      } else {
        relayed := true;
      }
    }
  }
}
