/** The entry point `lambda_handler`: the request it sends to the game-data
    provider, the assembly of the notification message from the fetched games,
    and the mapping of the two I/O outcomes (fetch, publish) to the response.
    The HTTP call and the publish call are not modelled; their success or
    failure is an input. */
module Handler {
  import opened Text
  import opened Games

  datatype Option<T> = None | Some(value: T)

  const ApiBase: string := "https://api.sportsdata.io/v3/nba/scores/json/GamesByDate/"
  const Separator: string := "\n---\n"
  const NoGamesMessage: string := "No games available for today."
  const Subject: string := "NBA Game Updates"

  /** The request URL for a date (`YYYY-MM-DD`) and an API key. */
  function ApiUrl(date: string, apiKey: string): string {
    ApiBase + date + "?key=" + apiKey
  }

  /** In a URL built from a date without `?`, the first `?` after the base is
      the one right after the date. */
  lemma UrlQueryStart(date: string, apiKey: string)
    requires '?' !in date
    ensures var u := ApiUrl(date, apiKey);
      |ApiBase| + |date| < |u| && u[|ApiBase| + |date|] == '?' &&
      forall i :: |ApiBase| <= i < |ApiBase| + |date| ==> u[i] != '?'
  {
  }

  /** The URL determines the date and the key it was built from, as long as the
      date has no `?` in it (a `YYYY-MM-DD` date has none). */
  lemma ApiUrlDeterminesRequest(date1: string, key1: string, date2: string, key2: string)
    requires '?' !in date1 && '?' !in date2
    requires ApiUrl(date1, key1) == ApiUrl(date2, key2)
    ensures date1 == date2 && key1 == key2
  {
    var u1, u2 := ApiUrl(date1, key1), ApiUrl(date2, key2);
    var n := |ApiBase|;
    UrlQueryStart(date1, key1);
    UrlQueryStart(date2, key2);
    assert |date1| == |date2|;
    assert date1 == u1[n..n + |date1|] && date2 == u2[n..n + |date2|];
    assert key1 == u1[n + |date1| + 5..] && key2 == u2[n + |date2| + 5..];
  }

  /** The list comprehension over the fetched games: every block in order, or
      the exception of the first game whose formatting raises. */
  function FormatAll(data: seq<Game>): (r: Result<seq<string>>)
    ensures r.Ok? <==> forall i :: 0 <= i < |data| ==> FormatGame(data[i]).Ok?
    ensures r.Ok? ==> |r.value| == |data| && forall i :: 0 <= i < |data| ==> FormatGame(data[i]) == Ok(r.value[i])
  {
    if data == [] then Ok([])
    else match FormatGame(data[0])
      case Err(e) => Err(e)
      case Ok(block) =>
        match FormatAll(data[1..])
        case Err(e) =>
          Err(e)
        case Ok(rest) => Ok([block] + rest)
  }

  /** The games are formatted in order, so the exception raised is that of
      the first game whose formatting raises. */
  lemma {:induction false} FormatAllFirstError(data: seq<Game>, k: nat)
    requires k < |data| && FormatGame(data[k]).Err?
    requires forall j :: 0 <= j < k ==> FormatGame(data[j]).Ok?
    ensures FormatAll(data) == Err(FormatGame(data[k]).error)
  {
    if k > 0 {
      FormatAllFirstError(data[1..], k - 1);
    }
  }

  /** The message `lambda_handler` builds from the fetched games: the blocks
      joined with `"\n---\n"`, or a fixed sentence when no games were fetched. That sentence is never the message
      of a non-empty game list, since every block starts with its status line. */
  function Assemble(data: seq<Game>): (r: Result<string>)
    ensures data == [] ==> r == Ok(NoGamesMessage)
    ensures r.Err? <==> exists i :: 0 <= i < |data| && FormatGame(data[i]).Err?
    ensures r.Ok? && data != [] ==> StartsWith(r.value, "Game Status: ")
    ensures r.Ok? ==> (r.value == NoGamesMessage <==> data == [])
  {
    if data == [] then Ok(NoGamesMessage)
    else match FormatAll(data)
      case Err(e) => Err(e)
      case Ok(blocks) =>
        JoinStartsWithFirst(Separator, blocks);
        assert StartsWith(blocks[0], "Game Status: ") by {
          assert FormatGame(data[0]) == Ok(blocks[0]);
        }
        assert Join(Separator, blocks)[0] == 'G';
        Ok(Join(Separator, blocks))
  }

  /** The exception the assembly raises is the one the formatting of the games
      raises, that is (by `FormatAllFirstError`) the first failing game's. */
  lemma AssembleRaisesFirstError(data: seq<Game>)
    requires Assemble(data).Err?
    ensures FormatAll(data).Err? && Assemble(data).error == FormatAll(data).error
  {
  }

  /** One game gives its block unchanged. */
  lemma AssembleOne(g: Game)
    requires FormatGame(g).Ok?
    ensures Assemble([g]) == FormatGame(g)
  {
  }

  /** Two games give `A + "\n---\n" + B`. */
  lemma AssembleTwo(a: Game, b: Game)
    requires FormatGame(a).Ok? && FormatGame(b).Ok?
    ensures Assemble([a, b]) == Ok(FormatGame(a).value + Separator + FormatGame(b).value)
  {
    AssembleOne(a);
    AssembleAppend([a], b);
    assert [a] + [b] == [a, b];
  }

  /** One more game appends one separator and its block. */
  lemma AssembleAppend(data: seq<Game>, g: Game)
    requires data != []
    requires Assemble(data).Ok? && FormatGame(g).Ok?
    ensures Assemble(data + [g]) == Ok(Assemble(data).value + Separator + FormatGame(g).value)
  {
    var all := data + [g];
    assert forall i :: 0 <= i < |data| ==> all[i] == data[i];
    assert FormatAll(all).Ok?;
    var blocks, front := FormatAll(all).value, FormatAll(data).value;
    assert blocks == front + [FormatGame(g).value];
    JoinConcat(Separator, front, [FormatGame(g).value]);
  }

  /** What the handler returns: a response, or an exception it does not catch. */
  datatype Outcome = Response(statusCode: int, body: string) | Raised(error: FormatError)

  /** The publish call the handler makes, if it gets that far. */
  datatype Publication = Publication(message: string, subject: string)

  /** The observable behaviour of one invocation: the URL requested, the
      publish call attempted (if any) and the outcome. */
  datatype Invocation = Invocation(request: string, publishCall: Option<Publication>, outcome: Outcome)

  /** The fetch step's result: the games of the JSON array, or a failure of the
      request or of the parse. */
  datatype Fetch = FetchFailed | Fetched(data: seq<Game>)

  /** `lambda_handler` with the date, the key, the fetch result and the
      publish result as inputs. A fetch failure answers 500 before publishing;
      a formatting exception escapes the handler (the join expression lies
      outside both `try` blocks) and nothing is published; otherwise the assembled message is published under
      a fixed subject and the publish result picks 200 or 500. */
  function LambdaHandler(date: string, apiKey: string, fetch: Fetch, publishSucceeds: bool): (r: Invocation)
    ensures r.request == ApiUrl(date, apiKey)
    ensures fetch.FetchFailed? ==> r.outcome == Response(500, "Error fetching data") && r.publishCall.None?
    ensures r.publishCall.Some? <==> fetch.Fetched? && Assemble(fetch.data).Ok?
    ensures r.publishCall.Some? ==> r.publishCall.value == Publication(Assemble(fetch.data).value, Subject)
    ensures r.outcome.Raised? <==> fetch.Fetched? && Assemble(fetch.data).Err?
    ensures r.outcome.Raised? ==> r.outcome.error == FormatAll(fetch.data).error
    ensures r.outcome == Response(200, "Data processed and sent to SNS") <==> r.publishCall.Some? && publishSucceeds
    ensures r.outcome == Response(500, "Error publishing to SNS") <==> r.publishCall.Some? && !publishSucceeds
    ensures r.outcome.Response? ==> r.outcome.statusCode in {200, 500} &&
                                    (r.outcome.statusCode == 200 <==> r.publishCall.Some? && publishSucceeds)
  {
    var url := ApiUrl(date, apiKey);
    match fetch
    case FetchFailed => Invocation(url, None, Response(500, "Error fetching data"))
    case Fetched(data) =>
      match Assemble(data)
      case Err(e) => Invocation(url, None, Raised(e))
      case Ok(message) =>
        var call := Some(Publication(message, Subject));
        if publishSucceeds then Invocation(url, call, Response(200, "Data processed and sent to SNS"))
        else Invocation(url, call, Response(500, "Error publishing to SNS"))
  }

  /** A day with one scheduled game, fetched and published: the handler
      answers 200 and publishes exactly that game's block. The expected message
      is written as the concatenation of its pieces rather than as one literal;
      the two are the same string. */
  lemma ScheduledGameScenario(date: string, apiKey: string)
    ensures var g := Game(Value("Scheduled"), Value("Lakers"), Value("Celtics"), Absent, Absent,
                          Value("2024-01-01T19:00:00"), Value("ESPN"), Absent, NoQuarters);
      LambdaHandler(date, apiKey, Fetched([g]), true) ==
        Invocation(ApiUrl(date, apiKey),
                   Some(Publication("Game Status: Scheduled\n" + "Lakers" + " vs " + "Celtics" + "\n" +
                                    "Start Time: " + "2024-01-01T19:00:00" + "\n" +
                                    "Channel: " + "ESPN" + "\n", Subject)),
                   Response(200, "Data processed and sent to SNS"))
  {
    var g := Game(Value("Scheduled"), Value("Lakers"), Value("Celtics"), Absent, Absent,
                  Value("2024-01-01T19:00:00"), Value("ESPN"), Absent, NoQuarters);
    ScheduledBlock(g);
    assert FormatGame(g) == Ok(
      "Game Status: Scheduled\n" + "Lakers" + " vs " + "Celtics" + "\n" +
      "Start Time: " + "2024-01-01T19:00:00" + "\n" + "Channel: " + "ESPN" + "\n");
    AssembleOne(g);
  }
}
