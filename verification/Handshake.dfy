/**
 * The handshake poll loop and UTF-16 capping of sidecar/hosted.go. The server and the context are
 * a script of rounds; times are milliseconds.
 */
module Handshake {
  import opened Options

  const FIRST_BACKOFF: nat := 2000
  const MAX_BACKOFF: nat := 15000
  const MIN_PENDING_INTERVAL: nat := 2000

  datatype Reply =
    | PollError
    | Complete(token: string, valid: bool)
    | Failed(error: string)
    | Pending(step: string)

  /** One pass of the loop: whether the context had ended at its head, the poll's reply, and whether it ended since. */
  datatype Round = Round(endedBefore: bool, reply: Reply, took: nat, endedAfter: bool)

  datatype Outcome =
    | Cancelled
    | Token(token: string)
    | ResolvedLocally
    | InvalidToken
    | ServerFailed(reason: string)

  /** The default reason for a failure the server does not explain. */
  function Reason(error: string): string {
    if error == "" then "setup failed on the server" else error
  }

  /** What a round settles by itself, if it settles anything. */
  function Settles(r: Round): Option<Outcome> {
    if r.endedBefore then Some(Cancelled)
    else
      match r.reply
      case PollError => if r.endedAfter then Some(Cancelled) else None
      case Complete(token, valid) =>
        Some(if token == "" then ResolvedLocally else if valid then Token(token) else InvalidToken)
      case Failed(error) => Some(ServerFailed(Reason(error)))
      case Pending(_) => if r.took < MIN_PENDING_INTERVAL && r.endedAfter then Some(Cancelled) else None
  }

  /** The first round that settles the handshake; |rounds| if none does. */
  function Settled(rounds: seq<Round>): (n: nat)
    ensures n <= |rounds|
    ensures forall i :: 0 <= i < n ==> Settles(rounds[i]).None?
    ensures n < |rounds| ==> Settles(rounds[n]).Some?
  {
    if rounds == [] || Settles(rounds[0]).Some? then 0
    else
      var n := Settled(rounds[1..]);
      assert forall i :: 0 < i <= n ==> i < |rounds| ==> rounds[i] == rounds[1..][i - 1];
      n + 1
  }

  function Pow2(k: nat): nat {
    if k == 0 then 1 else 2 * Pow2(k - 1)
  }

  function Smaller(a: nat, b: nat): nat {
    if a < b then a else b
  }

  /** How many poll errors in a row end at round k (exclusive). */
  function ErrorRun(rounds: seq<Round>, k: nat): nat
    requires k <= |rounds|
  {
    if k == 0 || !rounds[k - 1].reply.PollError? then 0 else ErrorRun(rounds, k - 1) + 1
  }

  /** How long the loop waits after round k. */
  function Wait(rounds: seq<Round>, k: nat): nat
    requires k < |rounds|
  {
    if rounds[k].reply.PollError? then Smaller(FIRST_BACKOFF * Pow2(ErrorRun(rounds, k)), MAX_BACKOFF)
    else if rounds[k].took < MIN_PENDING_INTERVAL then MIN_PENDING_INTERVAL - rounds[k].took
    else 0
  }

  /** The step hints of the first k rounds, without the empty ones. */
  function Steps(rounds: seq<Round>, k: nat): seq<string>
    requires k <= |rounds|
  {
    if k == 0 then []
    else Steps(rounds, k - 1) +
         if rounds[k - 1].reply.Pending? && rounds[k - 1].reply.step != "" then [rounds[k - 1].reply.step] else []
  }

  lemma {:induction false} Pow2Doubles(k: nat)
    ensures Smaller(2 * Smaller(FIRST_BACKOFF * Pow2(k), MAX_BACKOFF), MAX_BACKOFF) ==
            Smaller(FIRST_BACKOFF * Pow2(k + 1), MAX_BACKOFF)
  {
    assert FIRST_BACKOFF * Pow2(k + 1) == 2 * (FIRST_BACKOFF * Pow2(k));
  }

  /**
   * awaitHandshakeToken over a script of rounds (which runs out as if the context ended): the
   * first round that settles the handshake decides; before it the loop waits 2, 4, 8, 15, 15, ...
   * seconds after errors in a row, starting over after any reply, and reports the step hints in
   * order.
   */
  method AwaitToken(rounds: seq<Round>)
    returns (outcome: Outcome, waits: seq<nat>, steps: seq<string>)
    ensures var n := Settled(rounds);
            && outcome == (if n < |rounds| then Settles(rounds[n]).value else Cancelled)
            && |waits| == n
            && (forall k :: 0 <= k < n ==> waits[k] == Wait(rounds, k))
            && steps == Steps(rounds, if n < |rounds| && rounds[n].reply.Pending? && !rounds[n].endedBefore then n + 1 else n)
  {
    var backoff := FIRST_BACKOFF;
    waits, steps := [], [];
    for i := 0 to |rounds|
      invariant i <= Settled(rounds)
      invariant |waits| == i && forall k :: 0 <= k < i ==> waits[k] == Wait(rounds, k)
      invariant steps == Steps(rounds, i)
      invariant backoff == Smaller(FIRST_BACKOFF * Pow2(ErrorRun(rounds, i)), MAX_BACKOFF)
    {
      var r := rounds[i];
      if r.endedBefore {
        return Cancelled, waits, steps;
      }
      if r.reply.PollError? {
        if r.endedAfter {
          return Cancelled, waits, steps;
        }
        waits := waits + [backoff];
        Pow2Doubles(ErrorRun(rounds, i));
        backoff := Smaller(backoff * 2, MAX_BACKOFF);
        continue;
      }
      backoff := FIRST_BACKOFF;
      match r.reply
      case Complete(token, valid) =>
        if token == "" {
          return ResolvedLocally, waits, steps;
        }
        if !valid {
          return InvalidToken, waits, steps;
        }
        return Token(token), waits, steps;
      case Failed(error) =>
        var reason := error;
        if reason == "" {
          reason := "setup failed on the server";
        }
        return ServerFailed(reason), waits, steps;
      case Pending(step) =>
        if step != "" {
          steps := steps + [step];
        }
        var wait := 0;
        if r.took < MIN_PENDING_INTERVAL {
          wait := MIN_PENDING_INTERVAL - r.took;
          if r.endedAfter {
            return Cancelled, waits, steps;
          }
        }
        waits := waits + [wait];
    }
    outcome := Cancelled;
  }

  // ---- capUTF16 ----

  function Units(c: char): nat {
    if c as int > 0xFFFF then 2 else 1
  }

  function Length16(s: string): nat {
    if s == [] then 0 else Length16(s[..|s| - 1]) + Units(s[|s| - 1])
  }

  /** The longest prefix that fits: it fits, and with the next character it would not. */
  method CapUTF16(s: string, max: nat) returns (r: string)
    ensures r <= s && Length16(r) <= max
    ensures |r| < |s| ==> Length16(s[..|r| + 1]) > max
  {
    var units := 0;
    for i := 0 to |s|
      invariant units == Length16(s[..i]) <= max
    {
      assert s[..i + 1][..i] == s[..i];
      var w := 1;
      if s[i] as int > 0xFFFF {
        w := 2;
      }
      if units + w > max {
        return s[..i];
      }
      units := units + w;
    }
    assert s[..|s|] == s;
    r := s;
  }

  lemma {:induction false} Length16Grows(s: string, i: nat, j: nat)
    requires i <= j <= |s|
    ensures Length16(s[..i]) <= Length16(s[..j])
    decreases j
  {
    if i < j {
      assert s[..j][..j - 1] == s[..j - 1];
      Length16Grows(s, i, j - 1);
    }
  }

  /** No longer prefix fits. */
  lemma {:induction false} CapIsLongest(s: string, max: nat, r: string, p: string)
    requires r <= s && (|r| < |s| ==> Length16(s[..|r| + 1]) > max)
    requires p <= s && Length16(p) <= max
    ensures p <= r
  {
    assert p == s[..|p|];
    if |p| > |r| {
      Length16Grows(s, |r| + 1, |p|);
    }
  }
}
