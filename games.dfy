/** The per-game formatter `format_game_data`: a loosely typed game record
    rendered as a block of newline-terminated lines whose layout depends on
    the game's status. */
module Games {
  import opened Text

  /** One key of a JSON record as `dict.get` sees it: missing, present with
      JSON `null`, or present with a value (given here already rendered as the
      text an f-string would produce). */
  datatype Field = Absent | Null | Value(text: string)

  /** The `Quarters` key: missing, `null`, or an array of quarter records. */
  datatype QuarterField = NoQuarters | NullQuarters | Quarters(items: seq<Quarter>)

  datatype Quarter = Quarter(number: Field, awayScore: Field, homeScore: Field)

  datatype Game = Game(
    status: Field,
    awayTeam: Field,
    homeTeam: Field,
    awayTeamScore: Field,
    homeTeamScore: Field,
    dateTime: Field,
    channel: Field,
    lastPlay: Field,
    quarters: QuarterField)

  /** The exceptions the formatter can raise. */
  datatype FormatError =
    | QuartersNotIterable   // `Quarters` is null: iterating `None` raises
    | QuarterNumberMissing  // `q['Number']` on a quarter without that key raises

  datatype Result<T> = Ok(value: T) | Err(error: FormatError)

  const Unknown: string := "Unknown"
  const NotAvailable: string := "N/A"

  /** The text an f-string gives a present value; JSON null prints as `None`. */
  function Present(f: Field): string
    requires !f.Absent?
  {
    if f.Null? then "None" else f.text
  }

  /** `game.get(key, default)` rendered: the default replaces a missing key only. */
  function Get(f: Field, default: string): string {
    if f.Absent? then default else Present(f)
  }

  /** The default shows only for a missing key (or a value that happens to
      read the same); a JSON null is not defaulted and shows as `None`. */
  lemma GetDefaultsOnlyAbsent(f: Field, default: string)
    ensures Get(f, default) == default <==> f.Absent? || f == Value(default) || (f.Null? && default == "None")
    ensures f.Null? ==> Get(f, default) == "None"
  {
  }

  /** A quarter record from which `format_game_data` raises. */
  predicate QuarterMalformed(q: Quarter) {
    q.number.Absent?
  }

  /** A `Quarters` value from which `format_game_data` raises, whatever the status. */
  predicate QuartersMalformed(l: QuarterField) {
    l.NullQuarters? || (l.Quarters? && exists i :: 0 <= i < |l.items| && QuarterMalformed(l.items[i]))
  }

  /** `Q{n}: {away}-{home}` for one quarter. */
  function QuarterEntry(q: Quarter): string
    requires !QuarterMalformed(q)
  {
    "Q" + Present(q.number) + ": " + Get(q.awayScore, NotAvailable) + "-" + Get(q.homeScore, NotAvailable)
  }

  /** The list comprehension over the quarters: one entry per quarter, in input
      order, or the error raised by the first quarter without a number. */
  function QuarterEntries(qs: seq<Quarter>): (r: Result<seq<string>>)
    ensures r.Ok? <==> forall i :: 0 <= i < |qs| ==> !QuarterMalformed(qs[i])
    ensures r.Err? ==> r.error == QuarterNumberMissing
    ensures r.Ok? ==> |r.value| == |qs| && forall i :: 0 <= i < |qs| ==> r.value[i] == QuarterEntry(qs[i])
  {
    if qs == [] then Ok([])
    else if QuarterMalformed(qs[0]) then Err(QuarterNumberMissing)
    else match QuarterEntries(qs[1..])
      case Err(e) => Err(e)
      case Ok(rest) => Ok([QuarterEntry(qs[0])] + rest)
  }

  /** The `quarters` text: the entries joined with `", "`. It is empty exactly
      when there are no quarters, and it raises exactly when the quarters are
      malformed. */
  function QuarterScores(l: QuarterField): (r: Result<string>)
    ensures r.Err? <==> QuartersMalformed(l)
    ensures r.Err? ==> r.error == (if l.NullQuarters? then QuartersNotIterable else QuarterNumberMissing)
    ensures r == Ok("") <==> l == NoQuarters || l == Quarters([])
  {
    match l
    case NoQuarters => Ok(Join(", ", []))
    case NullQuarters => Err(QuartersNotIterable)
    case Quarters(qs) =>
      match QuarterEntries(qs)
      case Err(e) => Err(e)
      case Ok(entries) =>
        assert forall i :: 0 <= i < |entries| ==> entries[i][0] == 'Q';
        JoinEmptyIff(", ", entries);
        Ok(Join(", ", entries))
  }

  function Status(g: Game): string {
    Get(g.status, Unknown)
  }

  /** The first two lines of every block, as text. */
  lemma HeaderText(g: Game)
    ensures Unlines(HeaderLines(g)) ==
      "Game Status: " + Status(g) + "\n" + Get(g.awayTeam, Unknown) + " vs " + Get(g.homeTeam, Unknown) + "\n"
  {
    var h := HeaderLines(g);
    assert h == [] + [h[0]] + [h[1]];
    UnlinesSnoc([], h[0]);
    UnlinesSnoc([h[0]], h[1]);
  }

  /** The first two lines of every block: the status and the matchup. */
  function HeaderLines(g: Game): seq<string> {
    ["Game Status: " + Status(g), Get(g.awayTeam, Unknown) + " vs " + Get(g.homeTeam, Unknown)]
  }

  function Score(g: Game): string {
    Get(g.awayTeamScore, NotAvailable) + "-" + Get(g.homeTeamScore, NotAvailable)
  }

  /** The lines of the block, by status. The quarter list is computed before
      the status is examined, so a malformed one raises in every branch. */
  function BlockLines(g: Game): (r: Result<seq<string>>)
    ensures r.Err? <==> QuartersMalformed(g.quarters)
    ensures r.Ok? ==> |r.value| >= 3 && r.value[..2] == HeaderLines(g)
  {
    var startTime := Get(g.dateTime, Unknown);
    var channel := Get(g.channel, Unknown);
    match QuarterScores(g.quarters)
    case Err(e) => Err(e)
    case Ok(quarters) =>
      var details :=
        if Status(g) == "Final" then
          ["Final Score: " + Score(g), "Start Time: " + startTime, "Channel: " + channel, "Quarter Scores: " + quarters]
        else if Status(g) == "InProgress" then
          ["Current Score: " + Score(g), "Last Play: " + Get(g.lastPlay, NotAvailable), "Channel: " + channel]
        else if Status(g) == "Scheduled" then
          ["Start Time: " + startTime, "Channel: " + channel]
        else
          ["Details are unavailable at the moment."];
      Ok(HeaderLines(g) + details)
  }

  /** `format_game_data(game)`: the block, or the exception it raises. Every
      block begins with the status and matchup lines and ends with a newline. */
  function FormatGame(g: Game): (r: Result<string>)
    ensures r.Err? <==> QuartersMalformed(g.quarters)
    ensures r.Err? ==> r.error == (if g.quarters.NullQuarters? then QuartersNotIterable else QuarterNumberMissing)
    ensures r.Ok? ==> StartsWith(r.value, "Game Status: " + Status(g) + "\n" +
                                           Get(g.awayTeam, Unknown) + " vs " + Get(g.homeTeam, Unknown) + "\n")
    ensures r.Ok? ==> EndsWith(r.value, "\n")
  {
    match BlockLines(g)
    case Err(e) => Err(e)
    case Ok(lines) =>
      assert lines == lines[..2] + lines[2..];
      UnlinesAppend(lines[..2], lines[2..]);
      UnlinesEndsWithNewline(lines);
      Ok(Unlines(lines))
  }

  /** A `Final` block, as the `Final` f-string of `format_game_data` lays it out. */
  lemma FinalBlock(g: Game)
    requires g.status == Value("Final")
    requires !QuartersMalformed(g.quarters)
    ensures FormatGame(g) == Ok(
      "Game Status: Final\n" +
      Get(g.awayTeam, Unknown) + " vs " + Get(g.homeTeam, Unknown) + "\n" +
      "Final Score: " + Get(g.awayTeamScore, NotAvailable) + "-" + Get(g.homeTeamScore, NotAvailable) + "\n" +
      "Start Time: " + Get(g.dateTime, Unknown) + "\n" +
      "Channel: " + Get(g.channel, Unknown) + "\n" +
      "Quarter Scores: " + QuarterScores(g.quarters).value + "\n")
  {
    var h := HeaderLines(g);
    var d0, d1, d2, d3 :=
      "Final Score: " + Score(g), "Start Time: " + Get(g.dateTime, Unknown),
      "Channel: " + Get(g.channel, Unknown), "Quarter Scores: " + QuarterScores(g.quarters).value;
    assert BlockLines(g).value == h + [d0] + [d1] + [d2] + [d3];
    HeaderText(g);
    var text := Unlines(h);
    assert text == "Game Status: Final\n" + Get(g.awayTeam, Unknown) + " vs " + Get(g.homeTeam, Unknown) + "\n";
    UnlinesSnoc(h, d0);
    assert text + d0 + "\n" ==
      text + "Final Score: " + Get(g.awayTeamScore, NotAvailable) + "-" + Get(g.homeTeamScore, NotAvailable) + "\n";
    text := text + d0 + "\n";
    UnlinesSnoc(h + [d0], d1);
    assert text + d1 + "\n" == text + "Start Time: " + Get(g.dateTime, Unknown) + "\n";
    text := text + d1 + "\n";
    UnlinesSnoc(h + [d0] + [d1], d2);
    assert text + d2 + "\n" == text + "Channel: " + Get(g.channel, Unknown) + "\n";
    text := text + d2 + "\n";
    UnlinesSnoc(h + [d0] + [d1] + [d2], d3);
    assert text + d3 + "\n" == text + "Quarter Scores: " + QuarterScores(g.quarters).value + "\n";
  }

  /** An `InProgress` block, as the `InProgress` f-string of `format_game_data` lays it out. */
  lemma InProgressBlock(g: Game)
    requires g.status == Value("InProgress")
    requires !QuartersMalformed(g.quarters)
    ensures FormatGame(g) == Ok(
      "Game Status: InProgress\n" +
      Get(g.awayTeam, Unknown) + " vs " + Get(g.homeTeam, Unknown) + "\n" +
      "Current Score: " + Get(g.awayTeamScore, NotAvailable) + "-" + Get(g.homeTeamScore, NotAvailable) + "\n" +
      "Last Play: " + Get(g.lastPlay, NotAvailable) + "\n" +
      "Channel: " + Get(g.channel, Unknown) + "\n")
  {
    var h := HeaderLines(g);
    var d0, d1, d2 :=
      "Current Score: " + Score(g), "Last Play: " + Get(g.lastPlay, NotAvailable), "Channel: " + Get(g.channel, Unknown);
    assert BlockLines(g).value == h + [d0] + [d1] + [d2];
    HeaderText(g);
    var text := Unlines(h);
    assert text == "Game Status: InProgress\n" + Get(g.awayTeam, Unknown) + " vs " + Get(g.homeTeam, Unknown) + "\n";
    UnlinesSnoc(h, d0);
    assert text + d0 + "\n" ==
      text + "Current Score: " + Get(g.awayTeamScore, NotAvailable) + "-" + Get(g.homeTeamScore, NotAvailable) + "\n";
    text := text + d0 + "\n";
    UnlinesSnoc(h + [d0], d1);
    assert text + d1 + "\n" == text + "Last Play: " + Get(g.lastPlay, NotAvailable) + "\n";
    text := text + d1 + "\n";
    UnlinesSnoc(h + [d0] + [d1], d2);
    assert text + d2 + "\n" == text + "Channel: " + Get(g.channel, Unknown) + "\n";
  }

  /** A `Scheduled` block, as the `Scheduled` f-string of `format_game_data` lays it out. */
  lemma ScheduledBlock(g: Game)
    requires g.status == Value("Scheduled")
    requires !QuartersMalformed(g.quarters)
    ensures FormatGame(g) == Ok(
      "Game Status: Scheduled\n" +
      Get(g.awayTeam, Unknown) + " vs " + Get(g.homeTeam, Unknown) + "\n" +
      "Start Time: " + Get(g.dateTime, Unknown) + "\n" +
      "Channel: " + Get(g.channel, Unknown) + "\n")
  {
    var h := HeaderLines(g);
    var d0, d1 := "Start Time: " + Get(g.dateTime, Unknown), "Channel: " + Get(g.channel, Unknown);
    assert BlockLines(g).value == h + [d0] + [d1];
    HeaderText(g);
    var text := Unlines(h);
    assert text == "Game Status: Scheduled\n" + Get(g.awayTeam, Unknown) + " vs " + Get(g.homeTeam, Unknown) + "\n";
    UnlinesSnoc(h, d0);
    assert text + d0 + "\n" == text + "Start Time: " + Get(g.dateTime, Unknown) + "\n";
    text := text + d0 + "\n";
    UnlinesSnoc(h + [d0], d1);
    assert text + d1 + "\n" == text + "Channel: " + Get(g.channel, Unknown) + "\n";
  }

  /** Any other status, a missing one (`Unknown`) and a null one (`None`)
      included, gives the fallback block of `format_game_data`'s final `return`. */
  lemma OtherStatusBlock(g: Game)
    requires Status(g) !in {"Final", "InProgress", "Scheduled"}
    requires !QuartersMalformed(g.quarters)
    ensures FormatGame(g) == Ok(
      "Game Status: " + Status(g) + "\n" +
      Get(g.awayTeam, Unknown) + " vs " + Get(g.homeTeam, Unknown) + "\n" +
      "Details are unavailable at the moment.\n")
  {
    var h, d := HeaderLines(g), "Details are unavailable at the moment.";
    assert BlockLines(g).value == h + [d];
    HeaderText(g);
    UnlinesSnoc(h, d);
    assert Unlines(h) + d + "\n" == Unlines(h) + "Details are unavailable at the moment.\n";
  }

  /** The branch is chosen on the status text itself: a record without a
      status takes the fallback branch and shows `Unknown`, one with a null
      status shows `None`. */
  lemma MissingStatusBlock(g: Game)
    requires g.status.Absent? || g.status.Null?
    requires !QuartersMalformed(g.quarters)
    ensures FormatGame(g) == Ok(
      "Game Status: " + (if g.status.Absent? then "Unknown" else "None") + "\n" +
      Get(g.awayTeam, Unknown) + " vs " + Get(g.homeTeam, Unknown) + "\n" +
      "Details are unavailable at the moment.\n")
  {
    OtherStatusBlock(g);
  }

  /** The lines after the header of an `InProgress` block are the current
      score, the last play and the channel; none of them is a start time or a
      quarter listing. (Team names are free text, so the claim is about the
      lines the formatter adds, not about every substring of the block.) */
  lemma InProgressDetails(g: Game)
    requires g.status == Value("InProgress")
    requires !QuartersMalformed(g.quarters)
    ensures var lines := BlockLines(g).value;
      |lines| == 5 &&
      StartsWith(lines[2], "Current Score: ") &&
      StartsWith(lines[3], "Last Play: ") &&
      StartsWith(lines[4], "Channel: ") &&
      forall i :: 2 <= i < |lines| ==>
        !StartsWith(lines[i], "Start Time: ") && !StartsWith(lines[i], "Quarter Scores: ")
  {
    var lines := BlockLines(g).value;
    forall i | 2 <= i < |lines|
      ensures !StartsWith(lines[i], "Start Time: ") && !StartsWith(lines[i], "Quarter Scores: ")
    {
      assert lines[i][0] in {'C', 'L'};
    }
  }

  /** The lines after the header of a `Scheduled` block are the start time and
      the channel: no score line of either kind. */
  lemma ScheduledDetails(g: Game)
    requires g.status == Value("Scheduled")
    requires !QuartersMalformed(g.quarters)
    ensures var lines := BlockLines(g).value;
      |lines| == 4 &&
      StartsWith(lines[2], "Start Time: ") &&
      StartsWith(lines[3], "Channel: ") &&
      forall i :: 2 <= i < |lines| ==>
        !StartsWith(lines[i], "Final Score: ") && !StartsWith(lines[i], "Current Score: ")
  {
    var lines := BlockLines(g).value;
    forall i | 2 <= i < |lines|
      ensures !StartsWith(lines[i], "Final Score: ") && !StartsWith(lines[i], "Current Score: ")
    {
      assert lines[i][0] == 'S' || lines[i][1] == 'h';
    }
  }

  /** Appending a quarter appends its entry after a `", "` separator, so the
      entries appear in input order. */
  lemma QuarterScoresAppend(qs: seq<Quarter>, q: Quarter)
    requires forall i :: 0 <= i < |qs| ==> !QuarterMalformed(qs[i])
    requires !QuarterMalformed(q)
    ensures QuarterScores(Quarters(qs + [q])) == Ok(
      if qs == [] then QuarterEntry(q)
      else QuarterScores(Quarters(qs)).value + ", " + QuarterEntry(q))
  {
    assert forall i :: 0 <= i < |qs| ==> qs[i] == (qs + [q])[i];
    var all := QuarterEntries(qs + [q]).value;
    if qs == [] {
      assert all == [QuarterEntry(q)];
    } else {
      var front := QuarterEntries(qs).value;
      assert all == front + [QuarterEntry(q)];
      JoinConcat(", ", front, [QuarterEntry(q)]);
    }
  }
}
