/** The small helpers of the data manager: clock strings, position categories, attaching
    passing options to possessions, and the played-player filter. */
module DataManager {
  import opened Wrappers
  import opened Seqs
  import opened Events

  // ---------------------------------------------------------------------------------------
  // time_to_seconds

  /** Python's `str.split(sep)`: the pieces between separators, empty pieces included. */
  function Split(s: string, sep: char): (r: seq<string>)
    ensures |r| >= 1
    decreases |s|
  {
    if |s| == 0 then [""]
    else if s[0] == sep then [""] + Split(s[1..], sep)
    else
      var rest := Split(s[1..], sep);
      [[s[0]] + rest[0]] + rest[1..]
  }

  /** No piece of a split holds the separator. */
  lemma {:induction false} SplitPieces(s: string, sep: char)
    ensures forall i :: 0 <= i < |Split(s, sep)| ==> sep !in Split(s, sep)[i]
    decreases |s|
  {
    if |s| > 0 {
      SplitPieces(s[1..], sep);
      var rest := Split(s[1..], sep);
      if s[0] != sep {
        assert sep !in [s[0]] + rest[0];
        var r := Split(s, sep);
        assert forall i :: 1 <= i < |r| ==> r[i] == rest[i];
      }
    }
  }

  /** Splitting at the first separator of a string. */
  lemma {:induction false} SplitFirst(a: string, sep: char, b: string)
    requires sep !in a
    ensures Split(a + [sep] + b, sep) == [a] + Split(b, sep)
    decreases |a|
  {
    var s := a + [sep] + b;
    if |a| == 0 {
      assert s[1..] == b;
    } else {
      assert s[1..] == a[1..] + [sep] + b;
      SplitFirst(a[1..], sep, b);
      assert [a[0]] + a[1..] == a;
    }
  }

  lemma {:induction false} SplitNone(s: string, sep: char)
    requires sep !in s
    ensures Split(s, sep) == [s]
    decreases |s|
  {
    if |s| > 0 {
      SplitNone(s[1..], sep);
      assert [s[0]] + s[1..] == s;
    }
  }

  predicate IsDigit(c: char) { '0' <= c <= '9' }

  predicate AllDigits(s: string) { forall i :: 0 <= i < |s| ==> IsDigit(s[i]) }

  /** The value of a string of ASCII decimal digits, most significant first. */
  function DigitsValue(s: string): (n: nat)
    requires AllDigits(s)
    decreases |s|
  {
    if |s| == 0 then 0
    else DigitsValue(s[..|s| - 1]) * 10 + (s[|s| - 1] as int - '0' as int)
  }

  /** At least one ASCII digit and nothing else. */
  predicate Numeral(s: string) { |s| > 0 && AllDigits(s) }

  /** A sign followed by a numeral. */
  predicate SignedNumeral(s: string) { |s| > 1 && (s[0] == '-' || s[0] == '+') && AllDigits(s[1..]) }

  /** Python's `int` on a string: an optional sign followed by at least one ASCII digit;
      anything else raises, which is None here. */
  function ParseInt(s: string): (r: Option<int>)
    ensures r.Some? <==> Numeral(s) || SignedNumeral(s)
    ensures Numeral(s) ==> r == Some(DigitsValue(s))
    ensures SignedNumeral(s) ==> r == Some(if s[0] == '-' then -(DigitsValue(s[1..]) as int) else DigitsValue(s[1..]))
  {
    if SignedNumeral(s) then
      Some(if s[0] == '-' then -(DigitsValue(s[1..]) as int) else DigitsValue(s[1..]))
    else if Numeral(s) then Some(DigitsValue(s))
    else None
  }

  function DigitChar(d: nat): char
    requires d < 10
  {
    ('0' as int + d) as char
  }

  /** The decimal digits of `n`, as `str(n)` writes them. */
  function NatToString(n: nat): (s: string)
    ensures |s| > 0 && AllDigits(s)
    ensures ':' !in s
    decreases n
  {
    if n < 10 then [DigitChar(n)] else NatToString(n / 10) + [DigitChar(n % 10)]
  }

  /** Reading back the digits of `n` gives `n`. */
  lemma {:induction false} NatToStringValue(n: nat)
    ensures DigitsValue(NatToString(n)) == n
    decreases n
  {
    var s := NatToString(n);
    if n >= 10 {
      NatToStringValue(n / 10);
      assert s[..|s| - 1] == NatToString(n / 10);
    }
  }

  /** The clock string "h:m:s" of a time. */
  function FormatTime(h: nat, m: nat, s: nat): string
  {
    NatToString(h) + ":" + NatToString(m) + ":" + NatToString(s)
  }

  /** The time that makes every player's missing end count as the final whistle: 90 minutes. */
  const FullMatchSeconds: int := 90 * 60

  /** `time_to_seconds`: None stands for the full match; otherwise exactly three
      colon-separated integers `h`, `m`, `s` give `h*3600 + m*60 + s`. A string that does not
      have three parts, or a part that is not an integer, raises, which is None here. */
  function TimeToSeconds(t: Option<string>): (r: Option<int>)
    ensures t.None? ==> r == Some(5400)
    ensures t.Some? && |Split(t.value, ':')| != 3 ==> r.None?
  {
    match t
    case None => Some(FullMatchSeconds)
    case Some(str) =>
      var parts := Split(str, ':');
      if |parts| != 3 then None
      else
        match (ParseInt(parts[0]), ParseInt(parts[1]), ParseInt(parts[2]))
        case (Some(h), Some(m), Some(s)) => Some(h * 3600 + m * 60 + s)
        case _ => None
  }

  /** A string of digits holds no colon. */
  lemma DigitsNoColon(s: string)
    requires AllDigits(s)
    ensures ':' !in s
  {
  }

  /** Three colon-free pieces joined by colons split back into them. */
  lemma SplitClock(a: string, b: string, c: string)
    requires ':' !in a && ':' !in b && ':' !in c
    ensures Split(a + ":" + b + ":" + c, ':') == [a, b, c]
  {
    assert a + ":" + b + ":" + c == a + [':'] + (b + [':'] + c);
    SplitFirst(a, ':', b + [':'] + c);
    SplitFirst(b, ':', c);
    SplitNone(c, ':');
  }

  /** A string that splits into three parts that each parse reads as their weighted sum. */
  lemma TimeToSecondsOfParts(str: string, a: string, b: string, c: string, h: int, m: int, sec: int)
    requires Split(str, ':') == [a, b, c]
    requires ParseInt(a) == Some(h) && ParseInt(b) == Some(m) && ParseInt(c) == Some(sec)
    ensures TimeToSeconds(Some(str)) == Some(h * 3600 + m * 60 + sec)
  {
  }

  /** A numeral parses to its value. */
  lemma ParseDigits(s: string)
    requires Numeral(s)
    ensures ParseInt(s) == Some(DigitsValue(s) as int)
  {
  }

  /** `time_to_seconds` reads "h:m:s" from any three colon-free parts that parse to
      `h`, `m` and `s` as `h*3600 + m*60 + s`. */
  lemma ClockOfParts(a: string, b: string, c: string, h: int, m: int, sec: int)
    requires ':' !in a && ':' !in b && ':' !in c
    requires ParseInt(a) == Some(h) && ParseInt(b) == Some(m) && ParseInt(c) == Some(sec)
    ensures TimeToSeconds(Some(a + ":" + b + ":" + c)) == Some(h * 3600 + m * 60 + sec)
  {
    SplitClock(a, b, c);
    TimeToSecondsOfParts(a + ":" + b + ":" + c, a, b, c, h, m, sec);
  }

  /** `time_to_seconds` reads any clock string "h:m:s" of ASCII numerals, leading zeros
      included, as `h*3600 + m*60 + s`. */
  lemma TimeToSecondsDigits(a: string, b: string, c: string)
    requires Numeral(a) && Numeral(b) && Numeral(c)
    ensures TimeToSeconds(Some(a + ":" + b + ":" + c)) ==
      Some(DigitsValue(a) * 3600 + DigitsValue(b) * 60 + DigitsValue(c))
  {
    ParseDigits(a);
    ParseDigits(b);
    ParseDigits(c);
    assert Split(a + ":" + b + ":" + c, ':') == [a, b, c] by {
      DigitsNoColon(a);
      DigitsNoColon(b);
      DigitsNoColon(c);
      SplitClock(a, b, c);
    }
    TimeToSecondsOfParts(a + ":" + b + ":" + c, a, b, c, DigitsValue(a), DigitsValue(b), DigitsValue(c));
  }

  /** Leading zeros add nothing to a numeral's value. */
  lemma PaddedDigits()
    ensures DigitsValue("00") == 0 && DigitsValue("45") == 45
  {
    assert "00"[..1] == "0";
    assert "45"[..1] == "4";
  }

  /** A zero-padded clock string: three quarters of an hour. */
  lemma TimeToSecondsPadded()
    ensures TimeToSeconds(Some("00:45:00")) == Some(2700)
  {
    PaddedDigits();
    assert "00:45:00" == "00" + ":" + "45" + ":" + "00";
    TimeToSecondsDigits("00", "45", "00");
  }

  /** `time_to_seconds` reads back the clock string of every time "h:m:s" as `h*3600 + m*60 + s`. */
  lemma TimeToSecondsFormat(h: nat, m: nat, s: nat)
    ensures TimeToSeconds(Some(FormatTime(h, m, s))) == Some(h * 3600 + m * 60 + s)
  {
    TimeToSecondsDigits(NatToString(h), NatToString(m), NatToString(s));
    NatToStringValue(h);
    NatToStringValue(m);
    NatToStringValue(s);
  }

  /** A string that splits into three parts, one of which does not parse, reads as None. */
  lemma TimeToSecondsOfBadParts(str: string, a: string, b: string, c: string)
    requires Split(str, ':') == [a, b, c]
    requires ParseInt(a).None? || ParseInt(b).None? || ParseInt(c).None?
    ensures TimeToSeconds(Some(str)).None?
  {
  }

  /** A part that is not an integer makes `time_to_seconds` fail. */
  lemma TimeToSecondsBadPart(str: string)
    requires ParseInt(str).None? && ':' !in str
    ensures TimeToSeconds(Some(str + ":0:0")).None?
    ensures TimeToSeconds(Some("0:" + str + ":0")).None?
    ensures TimeToSeconds(Some("0:0:" + str)).None?
  {
    assert TimeToSeconds(Some(str + ":0:0")).None? by {
      assert str + ":0:0" == str + ":" + "0" + ":" + "0";
      SplitClock(str, "0", "0");
      TimeToSecondsOfBadParts(str + ":0:0", str, "0", "0");
    }
    assert TimeToSeconds(Some("0:" + str + ":0")).None? by {
      assert "0:" + str + ":0" == "0" + ":" + str + ":" + "0";
      SplitClock("0", str, "0");
      TimeToSecondsOfBadParts("0:" + str + ":0", "0", str, "0");
    }
    assert "0:0:" + str == "0" + ":" + "0" + ":" + str;
    SplitClock("0", "0", str);
    TimeToSecondsOfBadParts("0:0:" + str, "0", "0", str);
  }

  // ---------------------------------------------------------------------------------------
  // add_position_category

  /** The position-to-category table of `add_position_category`. */
  const PositionToCategory: map<string, string> := map[
    "GK" := "Keeper",
    "LB" := "Defender", "RB" := "Defender", "LCB" := "Defender", "RCB" := "Defender",
    "CB" := "Defender", "LWB" := "Defender", "RWB" := "Defender",
    "LM" := "Midfielder", "RM" := "Midfielder", "LDM" := "Midfielder", "RDM" := "Midfielder",
    "DM" := "Midfielder", "AM" := "Midfielder",
    "LW" := "Attacker", "RW" := "Attacker", "LF" := "Attacker", "RF" := "Attacker", "CF" := "Attacker"]

  /** The category of a position, 'Unknown' for a position outside the table. */
  function PositionCategory(position: string): (r: string)
    ensures r in {"Keeper", "Defender", "Midfielder", "Attacker", "Unknown"}
  {
    if position in PositionToCategory then PositionToCategory[position] else "Unknown"
  }

  /** Each category holds exactly the positions of the table, and every other position is
      'Unknown'. */
  lemma PositionCategoryTable(position: string)
    ensures PositionCategory(position) == "Keeper" <==> position == "GK"
    ensures PositionCategory(position) == "Defender" <==>
      position in {"LB", "RB", "LCB", "RCB", "CB", "LWB", "RWB"}
    ensures PositionCategory(position) == "Midfielder" <==>
      position in {"LM", "RM", "LDM", "RDM", "DM", "AM"}
    ensures PositionCategory(position) == "Attacker" <==>
      position in {"LW", "RW", "LF", "RF", "CF"}
    ensures PositionCategory(position) == "Unknown" <==>
      position !in {"GK", "LB", "RB", "LCB", "RCB", "CB", "LWB", "RWB", "LM", "RM", "LDM", "RDM",
                    "DM", "AM", "LW", "RW", "LF", "RF", "CF"}
  {
  }

  // ---------------------------------------------------------------------------------------
  // add_pass_options

  /** A row of the dynamic-events table, with the columns the option matching reads. */
  datatype RawEvent = RawEvent(
    matchId: MatchId,
    eventType: string,
    associatedPossessionEventId: Option<EventId>,
    xthreat: real,
    xpassCompletion: real,
    passingOptionScore: real,
    associatedOffBallRunSubtype: string,
    passRange: string)

  /** The matching rule of `add_pass_options`: a passing option of this match attached to the
      possession with this event id. */
  predicate MatchesPossession(e: RawEvent, matchId: MatchId, eventId: EventId)
  {
    e.associatedPossessionEventId == Some(eventId) && e.eventType == "passing_option" && e.matchId == matchId
  }

  /** The five fields `add_pass_options` copies out of a matching event. */
  function AsOption(e: RawEvent): PassingOption
  {
    PassingOption(e.xthreat, e.xpassCompletion, e.passingOptionScore, e.associatedOffBallRunSubtype, e.passRange)
  }

  /** The events of the table that belong to one possession, in table order. */
  function Matching(all: seq<RawEvent>, matchId: MatchId, eventId: EventId): seq<RawEvent>
  {
    Filter(all, (e: RawEvent) => MatchesPossession(e, matchId, eventId))
  }

  /** The passing options of one possession, in the order of the events table. */
  function OptionsFor(all: seq<RawEvent>, matchId: MatchId, eventId: EventId): seq<PassingOption>
  {
    Column(Matching(all, matchId, eventId), AsOption)
  }

  lemma MatchingAppend(all: seq<RawEvent>, e: RawEvent, matchId: MatchId, eventId: EventId)
    ensures Matching(all + [e], matchId, eventId) ==
      Matching(all, matchId, eventId) + (if MatchesPossession(e, matchId, eventId) then [e] else [])
  {
    FilterAppend(all, e, (x: RawEvent) => MatchesPossession(x, matchId, eventId));
  }

  /** Read along the events table, the options grow by exactly the matching events, in order. */
  lemma OptionsForAppend(all: seq<RawEvent>, e: RawEvent, matchId: MatchId, eventId: EventId)
    ensures OptionsFor(all + [e], matchId, eventId) ==
      OptionsFor(all, matchId, eventId) + (if MatchesPossession(e, matchId, eventId) then [AsOption(e)] else [])
  {
    MatchingAppend(all, e, matchId, eventId);
    if MatchesPossession(e, matchId, eventId) {
      ColumnConcat(Matching(all, matchId, eventId), [e], AsOption);
      assert Column([e], AsOption) == [AsOption(e)];
    }
  }

  /** An option is attached exactly when some matching event carries it. */
  lemma OptionsForMembers(all: seq<RawEvent>, matchId: MatchId, eventId: EventId, o: PassingOption)
    ensures o in OptionsFor(all, matchId, eventId) <==>
      exists e :: e in all && MatchesPossession(e, matchId, eventId) && AsOption(e) == o
  {
    var kept := Matching(all, matchId, eventId);
    var r := OptionsFor(all, matchId, eventId);
    if o in r {
      var i :| 0 <= i < |r| && r[i] == o;
      assert kept[i] in kept;
    }
    if exists e :: e in all && MatchesPossession(e, matchId, eventId) && AsOption(e) == o {
      var e :| e in all && MatchesPossession(e, matchId, eventId) && AsOption(e) == o;
      assert e in kept;
      var i :| 0 <= i < |kept| && kept[i] == e;
      assert r[i] == o;
    }
  }

  /** The possession table `add_pass_options` and `add_position_category` write into. */
  class PossessionTable {
    var rows: seq<PossessionEvent>

    constructor(rows: seq<PossessionEvent>)
      ensures this.rows == rows
    {
      this.rows := rows;
    }

    /** `add_pass_options`: each possession's `passing_options` becomes the options matching its
        match id and event id; no other field and no other row changes. */
    method AddPassOptions(all: seq<RawEvent>)
      modifies this
      ensures |rows| == |old(rows)|
      ensures forall i :: 0 <= i < |rows| ==>
        rows[i] == old(rows)[i].(passingOptions := OptionsFor(all, old(rows)[i].matchId, old(rows)[i].eventId))
    {
      for i := 0 to |rows|
        invariant |rows| == |old(rows)|
        invariant forall j :: 0 <= j < i ==>
          rows[j] == old(rows)[j].(passingOptions := OptionsFor(all, old(rows)[j].matchId, old(rows)[j].eventId))
        invariant forall j :: i <= j < |rows| ==> rows[j] == old(rows)[j]
      {
        var row := rows[i];
        rows := rows[i := row.(passingOptions := OptionsFor(all, row.matchId, row.eventId))];
      }
    }

    /** `add_position_category`: each row's `position_category` becomes the category of its
        position; nothing else changes. */
    method AddPositionCategory()
      modifies this
      ensures |rows| == |old(rows)|
      ensures forall i :: 0 <= i < |rows| ==>
        rows[i] == old(rows)[i].(positionCategory := PositionCategory(old(rows)[i].playerPosition))
    {
      rows := seq(|rows|, i requires 0 <= i < |rows| reads this =>
        rows[i].(positionCategory := PositionCategory(rows[i].playerPosition)));
    }
  }

  // ---------------------------------------------------------------------------------------
  // load_player_data: played players and total_time

  /** A player of a match sheet, with the clock strings of coming on and going off. */
  datatype PlayerRecord = PlayerRecord(id: PlayerId, startTime: Option<string>, endTime: Option<string>)

  /** A player who played, with `total_time` in seconds. */
  datatype PlayedPlayer = PlayedPlayer(player: PlayerRecord, totalTime: int)

  /** A player played unless both clock strings are missing. */
  predicate Played(p: PlayerRecord)
  {
    !(p.startTime.None? && p.endTime.None?)
  }

  /** `total_time`: seconds at going off minus seconds at coming on. */
  function TotalTime(p: PlayerRecord): (r: Option<int>)
    ensures r.Some? <==> TimeToSeconds(p.endTime).Some? && TimeToSeconds(p.startTime).Some?
  {
    match (TimeToSeconds(p.endTime), TimeToSeconds(p.startTime))
    case (Some(e), Some(s)) => Some(e - s)
    case _ => None
  }

  /** The `total_time` column over a table; any clock string that does not parse fails it. */
  function TotalTimes(ps: seq<PlayerRecord>): (r: Option<seq<PlayedPlayer>>)
    ensures r.Some? <==> forall i :: 0 <= i < |ps| ==> TotalTime(ps[i]).Some?
    ensures r.Some? ==> |r.value| == |ps|
    ensures r.Some? ==> forall i :: 0 <= i < |ps| ==>
      r.value[i].player == ps[i] && Some(r.value[i].totalTime) == TotalTime(ps[i])
    decreases |ps|
  {
    if |ps| == 0 then Some([])
    else
      match (TotalTime(ps[0]), TotalTimes(ps[1..]))
      case (Some(t), Some(rest)) => Some([PlayedPlayer(ps[0], t)] + rest)
      case (_, _) => None
  }

  /** The played players of a match sheet with their `total_time`, in sheet order. */
  function PlayedPlayers(ps: seq<PlayerRecord>): Option<seq<PlayedPlayer>>
  {
    TotalTimes(Filter(ps, Played))
  }

  /** Exactly the players with a clock string are kept, and each gets its `total_time`. */
  lemma PlayedPlayersExactly(ps: seq<PlayerRecord>)
    requires PlayedPlayers(ps).Some?
    ensures forall q :: q in PlayedPlayers(ps).value ==> q.player in ps && Played(q.player)
    ensures forall p :: p in ps && Played(p) ==> exists q :: q in PlayedPlayers(ps).value && q.player == p
    ensures forall q :: q in PlayedPlayers(ps).value ==> Some(q.totalTime) == TotalTime(q.player)
  {
    var kept := Filter(ps, Played);
    var r := PlayedPlayers(ps).value;
    forall p | p in ps && Played(p)
      ensures exists q :: q in r && q.player == p
    {
      var i :| 0 <= i < |kept| && kept[i] == p;
      assert r[i] in r;
    }
  }

  /** A player who came on at "h:m:s" and has no end time played until the 90th minute. */
  lemma TotalTimeToFinalWhistle(id: PlayerId, h: nat, m: nat, s: nat)
    ensures TotalTime(PlayerRecord(id, Some(FormatTime(h, m, s)), None)) == Some(5400 - (h * 3600 + m * 60 + s))
  {
    TimeToSecondsFormat(h, m, s);
  }
}
