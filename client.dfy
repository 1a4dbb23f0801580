/** The wrapper around the remote language-model service: which credential it
    is built with, the retry loop of `analyze`, and the extraction of JSON from
    a reply that may be wrapped in a markdown code fence. */
module Client {
  import opened Model
  import opened Text
  import opened Wire

  /** The credential the underlying service client is built with. */
  datatype Credential = ApiKey(key: string) | AuthToken(token: string)

  /** The token-file setting: the path named by the environment ("" when unset)
      and what reading it gives (None when opening or reading fails). */
  datatype TokenFile = TokenFile(path: string, contents: Option<string>)

  /** `_read_auth_token`: the stripped file contents, or None when there is no path,
      the file cannot be read, or it holds only whitespace. */
  function ReadAuthToken(f: TokenFile): (r: Option<string>)
    ensures r.Some? <==> f.path != "" && f.contents.Some? && Strip(f.contents.value) != ""
    ensures r.Some? ==> r.value == Strip(f.contents.value)
  {
    if f.path == "" then None
    else match f.contents
      case None => None
      case Some(text) => if Strip(text) == "" then None else Some(Strip(text))
  }

  /** The effective API key: the argument unless it is empty, else the configured key. */
  function EffectiveKey(keyArg: string, configuredKey: string): string {
    if keyArg != "" then keyArg else configuredKey
  }

  /** The credential chosen by the constructor: the API key when there is one,
      otherwise the auth token, otherwise none. */
  function SelectCredential(key: string, f: TokenFile): (r: Option<Credential>)
    ensures key != "" ==> r == Some(ApiKey(key))
    ensures key == "" ==> (r.Some? <==> ReadAuthToken(f).Some?)
    ensures key == "" && r.Some? ==> r == Some(AuthToken(ReadAuthToken(f).value))
  {
    if key != "" then Some(ApiKey(key))
    else match ReadAuthToken(f)
      case Some(t) => Some(AuthToken(t))
      case None => None
  }

  /** The outcome of one request to the service. */
  datatype Attempt =
    | Response(text: string)
    | RateLimited
    | ApiError
    | OtherError
  {
    /** Outcomes after which the loop goes on to the next attempt. */
    predicate Retryable() { RateLimited? || ApiError? }
  }

  /** `2 ** n`, which exceeds its exponent. */
  function Pow2(n: nat): (r: nat)
    ensures r > n
  {
    if n == 0 then 1 else 2 * Pow2(n - 1)
  }

  /** Seconds slept after attempt `k` (0-based) ended with `a`: a rate limit always
      waits 2^(k+1), an API error only when another attempt remains. */
  function WaitAfter(a: Attempt, k: nat, maxRetries: int): seq<nat> {
    match a
    case RateLimited => [Pow2(k + 1)]
    case ApiError => if k < maxRetries - 1 then [Pow2(k + 1)] else []
    case _ => []
  }

  /** The sleeps of the first `n` attempts. */
  function WaitsOf(service: nat -> Attempt, n: nat, maxRetries: int): seq<nat> {
    if n == 0 then [] else WaitsOf(service, n - 1, maxRetries) + WaitAfter(service(n - 1), n - 1, maxRetries)
  }

  /** When every attempt is rate limited the client sleeps 2, 4, ..., 2^n seconds,
      one sleep per attempt, the last attempt included. */
  lemma {:induction false} AllRateLimitedWaits(service: nat -> Attempt, n: nat, maxRetries: int)
    requires forall k :: 0 <= k < n ==> service(k) == RateLimited
    ensures |WaitsOf(service, n, maxRetries)| == n
    ensures forall k :: 0 <= k < n ==> WaitsOf(service, n, maxRetries)[k] == Pow2(k + 1)
  {
    if n > 0 {
      AllRateLimitedWaits(service, n - 1, maxRetries);
    }
  }

  /** When every attempt fails with an API error the client sleeps 2, 4, ... seconds
      between attempts only: after the last allowed attempt there is no sleep. */
  lemma {:induction false} AllApiErrorsWait(service: nat -> Attempt, n: nat, maxRetries: int)
    requires forall k :: 0 <= k < n ==> service(k) == ApiError
    requires 1 <= n <= maxRetries
    ensures |WaitsOf(service, n, maxRetries)| == if n == maxRetries then n - 1 else n
    ensures forall k :: 0 <= k < |WaitsOf(service, n, maxRetries)| ==> WaitsOf(service, n, maxRetries)[k] == Pow2(k + 1)
  {
    if n > 1 {
      AllApiErrorsWait(service, n - 1, maxRetries);
    }
  }

  /** The lines of a reply with surrounding whitespace stripped from each. */
  function StripEach(lines: seq<string>): (r: seq<string>)
    ensures |r| == |lines|
    ensures forall i :: 0 <= i < |lines| ==> r[i] == Strip(lines[i])
  {
    seq(|lines|, i requires 0 <= i < |lines| => Strip(lines[i]))
  }

  /** The end of the fenced body among the stripped lines[..hi]: the last index
      `i >= 1` whose line is "```", or `hi` when there is none. */
  function FenceEnd(stripped: seq<string>, hi: nat): (e: nat)
    requires hi <= |stripped|
    ensures e <= hi
    ensures e < hi ==> 1 <= e && stripped[e] == "```"
    ensures forall i :: 1 <= i < hi && e < i ==> stripped[i] != "```"
    ensures e == hi ==> forall i :: 1 <= i < hi ==> stripped[i] != "```"
  {
    if hi <= 1 then hi
    else if stripped[hi - 1] == "```" then hi - 1
    else
      var e := FenceEnd(stripped, hi - 1);
      if e == hi - 1 then hi else e
  }
  /** The text handed to the JSON decoder: the stripped reply, and for a fenced reply
      the lines after the first up to the closing fence, joined and stripped. */
  function Cleaned(text: string): string {
    var c := Strip(text);
    if StartsWith(c, "```") then
      var lines := Split(c, '\n');
      Strip(Join("\n", lines[1..FenceEnd(StripEach(lines), |lines|)]))
    else c
  }

  /** The lines of a fenced reply: the opening line, the body's lines, the closing fence. */
  lemma FencedLines(tag: string, body: string)
    requires '\n' !in tag
    ensures Split("```" + tag + "\n" + body + "\n```", '\n') == ["```" + tag] + Split(body, '\n') + ["```"]
  {
    var head := "```" + tag;
    var first := head + ['\n'] + body;
    SplitWithout(head, '\n');
    SplitWithout("```", '\n');
    SplitConcat(head, '\n', body);
    SplitConcat(first, '\n', "```");
    assert "\n```" == ['\n'] + "```";
    AppendAssoc(first, ['\n'], "```");
  }

  lemma FencedStartsWith(tag: string, body: string)
    ensures StartsWith("```" + tag + "\n" + body + "\n```", "```")
  {
    var t := "```" + tag + "\n" + body + "\n```";
    assert t[..3] == "```";
  }

  lemma FencedStripped(tag: string, body: string)
    ensures var t := "```" + tag + "\n" + body + "\n```"; Strip(t) == t
  {
    var t := "```" + tag + "\n" + body + "\n```";
    assert t[0] == '`' && t[|t| - 1] == '`';
    StripUnchanged(t);
  }

  /** The decoder input of a stripped text that starts with a fence. */
  lemma CleanedFenced(c: string, lines: seq<string>, e: nat)
    requires Strip(c) == c && StartsWith(c, "```")
    requires lines == Split(c, '\n') && e == FenceEnd(StripEach(lines), |lines|)
    requires 1 <= e <= |lines|
    ensures Cleaned(c) == Strip(Join("\n", lines[1..e]))
  {
  }

  /** A reply fenced as "```tag", a body and a closing "```" line decodes its body. */
  lemma FencedReply(tag: string, body: string)
    requires '\n' !in tag
    ensures Cleaned("```" + tag + "\n" + body + "\n```") == Strip(body)
  {
    var t := "```" + tag + "\n" + body + "\n```";
    FencedStartsWith(tag, body);
    FencedStripped(tag, body);
    FencedLines(tag, body);
    var lines := Split(t, '\n');
    assert StripEach(lines)[|lines| - 1] == "```" by {
      StripUnchanged("```");
    }
    var e := FenceEnd(StripEach(lines), |lines|);
    assert e == |lines| - 1 by {
      assert |lines| >= 2;
    }
    CleanedFenced(t, lines, e);
    assert lines[1..e] == Split(body, '\n');
    JoinSplit(body, '\n');
  }

  /** A reply that is not fenced reaches the decoder only stripped. */
  lemma PlainReply(text: string)
    requires !StartsWith(Strip(text), "```")
    ensures Cleaned(text) == Strip(text)
  {
  }

  /** The analysis client: `available` holds iff the constructor chose a credential. */
  class AnalysisClient {
    const apiKey: string
    const credential: Option<Credential>

    constructor (keyArg: string, configuredKey: string, tokenFile: TokenFile)
      ensures apiKey == EffectiveKey(keyArg, configuredKey)
      ensures credential == SelectCredential(apiKey, tokenFile)
    {
      apiKey := EffectiveKey(keyArg, configuredKey);
      credential := SelectCredential(EffectiveKey(keyArg, configuredKey), tokenFile);
    }

    predicate Available() {
      credential.Some?
    }

    /** The backward scan for the closing fence line. */
    static method FindFenceEnd(lines: seq<string>) returns (e: nat)
      ensures e == FenceEnd(StripEach(lines), |lines|)
    {
      e := |lines|;
      var i := |lines| - 1;
      while i >= 1
        invariant -1 <= i < |lines|
        invariant forall j :: i < j < |lines| ==> StripEach(lines)[j] != "```"
        decreases i
      {
        if Strip(lines[i]) == "```" {
          e := i;
          break;
        }
        i := i - 1;
      }
      FenceEndUnique(StripEach(lines), e);
    }

    /** `_parse_json_response`: the decoder's verdict on the cleaned text. */
    static method ParseJsonResponse(text: string, decode: string -> Option<Reply>) returns (r: Option<Reply>)
      ensures r == decode(Cleaned(text))
    {
      var cleaned := Strip(text);
      if StartsWith(cleaned, "```") {
        var lines := Split(cleaned, '\n');
        var e := FindFenceEnd(lines);
        cleaned := Strip(Join("\n", lines[1..e]));
      }
      r := decode(cleaned);
    }

    /** `analyze`: up to `maxRetries` requests; `service(k)` is what attempt `k` gets back. */
    method Analyze(maxRetries: int, service: nat -> Attempt, decode: string -> Option<Reply>)
      returns (r: Option<Reply>, attempts: nat, waits: seq<nat>)
      ensures !Available() ==> r == None && attempts == 0 && waits == []
      ensures attempts <= (if maxRetries > 0 then maxRetries else 0)
      ensures forall k :: 0 <= k < attempts - 1 ==> service(k).Retryable()
      ensures attempts > 0 && service(attempts - 1).Response? ==>
                r == decode(Cleaned(service(attempts - 1).text))
      ensures attempts == 0 || !service(attempts - 1).Response? ==> r == None
      ensures Available() && attempts < maxRetries ==>
                attempts > 0 && !service(attempts - 1).Retryable()
      ensures waits == WaitsOf(service, attempts, maxRetries)
    {
      r, attempts, waits := None, 0, [];
      if !Available() {
        return;
      }
      attempts, waits := Retry(maxRetries, service);
      if attempts > 0 && service(attempts - 1).Response? {
        r := ParseJsonResponse(service(attempts - 1).text, decode);
      }
    }

    /** The retry loop of `analyze`: it stops at the first outcome that is not a
        rate limit or an API error, or after `maxRetries` attempts, sleeping as
        `WaitAfter` says after each attempt. */
    static method Retry(maxRetries: int, service: nat -> Attempt) returns (attempts: nat, waits: seq<nat>)
      ensures attempts <= (if maxRetries > 0 then maxRetries else 0)
      ensures forall k :: 0 <= k < attempts - 1 ==> service(k).Retryable()
      ensures attempts < maxRetries ==> attempts > 0 && !service(attempts - 1).Retryable()
      ensures waits == WaitsOf(service, attempts, maxRetries)
    {
      attempts, waits := 0, [];
      while attempts < maxRetries
        invariant attempts <= (if maxRetries > 0 then maxRetries else 0)
        invariant forall k :: 0 <= k < attempts ==> service(k).Retryable()
        invariant waits == WaitsOf(service, attempts, maxRetries)
        decreases maxRetries - attempts
      {
        var outcome := service(attempts);
        waits := waits + WaitAfter(outcome, attempts, maxRetries);
        attempts := attempts + 1;
        if !outcome.Retryable() {
          return;
        }
      }
    }
  }

  lemma FenceEndUnique(stripped: seq<string>, e: nat)
    requires e <= |stripped|
    requires e < |stripped| ==> 1 <= e && stripped[e] == "```"
    requires forall j :: 1 <= j < |stripped| && e < j ==> stripped[j] != "```"
    requires e == |stripped| ==> forall j :: 1 <= j < |stripped| ==> stripped[j] != "```"
    ensures e == FenceEnd(stripped, |stripped|)
  {
  }
}
