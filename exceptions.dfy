/**
 * The bot's three exception records. Each keeps its constructor arguments
 * unchanged as fields and carries one formatted message.
 */
module Exceptions {
  import opened Wrappers
  import opened Text

  /** Raised when the Travis trigger request gets a status outside 2xx. */
  datatype TravisTriggerError = TravisTriggerError(
    repo: string,
    branch: string,
    url: string,
    statusCode: int,
    headers: seq<(string, string)>,
    text: string)
  {
    function Message(): string {
      "Got " + IntToString(statusCode) + " " + "response code when triggering build of " + repo
      + " (" + branch + ") via <" + url + ">:\nHeaders:\n" + DictRepr(headers)
      + "\nResponse Body:\n" + text
    }
  }

  /** Raised when polling Travis for a change gives up. */
  datatype PollTimeoutException = PollTimeoutException(
    pollType: string,
    repo: string,
    waitTime: int,
    numTimes: int)
  {
    function Message(): string {
      "Polling Travis for update to " + pollType + " on " + repo + " timed out after "
      + IntToString(waitTime * numTimes) + " seconds"
    }
  }

  /**
   * Whatever `run_build` raises and `set_travis_trigger_error` stores: a
   * `TravisTriggerError` from the trigger request, or any other exception,
   * kept as its message.
   */
  datatype BuildError = TriggerFailed(error: TravisTriggerError) | OtherFailure(message: string)

  /** Raised when neither the environment nor `~/.gitconfig` holds a GitHub token. */
  datatype GitTokenMissingError = GitTokenMissingError
  {
    function Message(): string {
      "ReBuildBot could not find your GitHub token. You must either set it as the "
      + "GITHUB_TOKEN" + " environment variable, or add it as the value of a 'token' key "
      + "in the 'github' section of your " + "~/.gitconfig" + " file."
    }
  }

  /** Python's `str()` of a dict of strings, without escaping inside the quotes. */
  function DictRepr(entries: seq<(string, string)>): string {
    "{" + DictItems(entries) + "}"
  }

  function DictItems(entries: seq<(string, string)>): string {
    if entries == [] then ""
    else
      var item := "'" + entries[0].0 + "': '" + entries[0].1 + "'";
      if |entries| == 1 then item else item + ", " + DictItems(entries[1..])
  }

  // ----- reading the numbers back out of the messages -----

  /** The status code a trigger-error message reports: the word after "Got ". */
  function ReportedStatus(message: string): Option<int> {
    if StartsWith(message, "Got ") then ParseInt(FirstField(message[4..], ' ')) else None
  }

  /** The number of seconds a poll-timeout message reports: the word before " seconds". */
  function ReportedSeconds(message: string): Option<int> {
    if EndsWith(message, " seconds") then ParseInt(LastField(message[..|message| - 8], ' ')) else None
  }

  /** A trigger-error message reports exactly the response's status code. */
  lemma TriggerMessageReportsStatus(e: TravisTriggerError)
    ensures ReportedStatus(e.Message()) == Some(e.statusCode)
  {
    var code := IntToString(e.statusCode);
    var rest := "response code when triggering build of " + e.repo + " (" + e.branch + ") via <"
      + e.url + ">:\nHeaders:\n" + DictRepr(e.headers) + "\nResponse Body:\n" + e.text;
    assert e.Message() == "Got " + (code + " " + rest);
    assert e.Message()[4..] == code + " " + rest;
    IntToStringHasNo(e.statusCode, ' ');
    FirstFieldOf(code, ' ', rest);
    IntToStringRoundTrip(e.statusCode);
  }

  /**
   * A trigger-error message names the request: right after the fixed text
   * that follows the status code come the repository, the branch in
   * parentheses and the URL after an angle bracket, and the message ends with
   * the response body.
   */
  lemma TriggerMessageNamesRequest(e: TravisTriggerError)
    ensures OccursAt(e.Message(), e.repo + " (" + e.branch + ") via <" + e.url,
      |"Got " + IntToString(e.statusCode) + " " + "response code when triggering build of "|)
    ensures EndsWith(e.Message(), "\nResponse Body:\n" + e.text)
  {
    var front := "Got " + IntToString(e.statusCode) + " " + "response code when triggering build of ";
    var request := e.repo + " (" + e.branch + ") via <" + e.url;
    var headers := ">:\nHeaders:\n" + DictRepr(e.headers);
    var body := "\nResponse Body:\n" + e.text;
    assert e.Message() == front + request + (headers + body);
    OccursAfter(front, request, headers + body);
    assert e.Message() == (front + request + headers) + body;
  }

  /** A poll-timeout message reports the total wait, `wait_time * num_times` seconds. */
  lemma TimeoutMessageReportsSeconds(e: PollTimeoutException)
    ensures ReportedSeconds(e.Message()) == Some(e.waitTime * e.numTimes)
  {
    var secs := IntToString(e.waitTime * e.numTimes);
    var front := "Polling Travis for update to " + e.pollType + " on " + e.repo + " timed out after";
    var m := e.Message();
    assert m == front + " " + secs + " seconds";
    assert m[..|m| - 8] == front + " " + secs;
    IntToStringHasNo(e.waitTime * e.numTimes, ' ');
    LastFieldOf(front, ' ', secs);
    IntToStringRoundTrip(e.waitTime * e.numTimes);
  }

  /** The missing-token message names both places a token is looked for. */
  lemma TokenMessageNamesBothSources(e: GitTokenMissingError)
    ensures Contains(e.Message(), "GITHUB_TOKEN")
    ensures Contains(e.Message(), "~/.gitconfig")
  {
    var a := "ReBuildBot could not find your GitHub token. You must either set it as the ";
    var b := " environment variable, or add it as the value of a 'token' key ";
    var c := "in the 'github' section of your ";
    OccursAfter(a, "GITHUB_TOKEN", b);
    OccursExtended(a + "GITHUB_TOKEN" + b, "GITHUB_TOKEN", |a|, c);
    OccursExtended(a + "GITHUB_TOKEN" + b + c, "GITHUB_TOKEN", |a|, "~/.gitconfig");
    OccursExtended(a + "GITHUB_TOKEN" + b + c + "~/.gitconfig", "GITHUB_TOKEN", |a|, " file.");
    OccursAfter(a + "GITHUB_TOKEN" + b + c, "~/.gitconfig", " file.");
  }
}
