/** The classification of one key login from ssh's exit status and debug log. */
module SshDiagnostics {
  import Text

  const OFFERING := "debug1: Offering public key: "

  // Packet numbers from section 6 of RFC 4252: USERAUTH_REQUEST and USERAUTH_FAILURE.
  const SENT_REQUEST := "debug3: send packet: type 50"
  const GOT_FAILURE := "debug3: receive packet: type 51"

  datatype Verdict = Authenticated | Rejected | Indeterminate

  /** ssh could not be started or timed out, or it exited with a status and a log. */
  datatype Outcome = NoResult | Exited(status: int, log: seq<string>)

  predicate EndsWith(s: string, suffix: string) {
    |s| >= |suffix| && s[|s| - |suffix|..] == suffix
  }

  predicate IsOffer(line: string) {
    OFFERING <= line
  }

  predicate IsOfferOf(line: string, keyPath: string) {
    OFFERING + keyPath + " " <= line && EndsWith(line, " explicit")
  }

  predicate IsMethodChar(c: char) {
    'A' <= c <= 'Z' || 'a' <= c <= 'z' || '0' <= c <= '9' || c in {'@', '.', '_', ',', '+', '-'}
  }

  /** "user@host: Permission denied (methods)." and nothing else. */
  predicate IsDenial(line: string, user: string, host: string) {
    var opening := user + "@" + host + ": Permission denied (";
    && |line| > |opening| + 2
    && opening <= line
    && EndsWith(line, ").")
    && forall c | c in line[|opening|..|line| - 2] :: IsMethodChar(c)
  }

  predicate EndsInDenial(log: seq<string>, user: string, host: string) {
    log != [] && IsDenial(Text.Strip(log[|log| - 1]), user, host)
  }

  /** The lines after `i` up to `k` belong to the offer at `i`. */
  predicate SameOffer(log: seq<string>, i: nat, k: nat)
    requires k < |log|
  {
    forall m | i < m <= k :: !IsOffer(log[m])
  }

  /** After line `i`'s offer of this key a request was sent and the server answered with a failure. */
  predicate AnsweredWithFailure(log: seq<string>, i: nat) {
    exists j, k :: i < j < k < |log| && log[j] == SENT_REQUEST && log[k] == GOT_FAILURE && SameOffer(log, i, k)
  }

  /** The log proves that this very key was offered and refused. */
  predicate ProvesRefusal(log: seq<string>, keyPath: string) {
    exists i :: 0 <= i < |log| && IsOfferOf(log[i], keyPath) && AnsweredWithFailure(log, i)
  }

  /** The inner loop: the lines after one offer, up to the next. */
  method ScanOffer(log: seq<string>, i: nat) returns (refused: bool)
    requires i < |log|
    ensures refused <==> AnsweredWithFailure(log, i)
  {
    var sent := false;
    for m := i + 1 to |log|
      invariant forall n | i < n < m :: !IsOffer(log[n])
      invariant sent <==> exists j :: i < j < m && log[j] == SENT_REQUEST
      invariant forall j, k | i < j < k < m && log[j] == SENT_REQUEST :: log[k] != GOT_FAILURE
    {
      var response := log[m];
      if IsOffer(response) {
        assert forall k | m <= k < |log| :: !SameOffer(log, i, k);
        return false;
      }
      if response == SENT_REQUEST {
        sent := true;
      } else if sent && response == GOT_FAILURE {
        assert SameOffer(log, i, m);
        return true;
      }
    }
    refused := false;
  }

  /**
   _ssh_key_authentication_result: rejection is claimed exactly for status 255,
   a final denial, and a log that proves the refusal of this key; success
   exactly for status 0.
   */
  method Classify(outcome: Outcome, keyPath: string, user: string, host: string) returns (v: Verdict)
    ensures v.Authenticated? <==> outcome.Exited? && outcome.status == 0
    ensures v.Rejected? <==>
              && outcome.Exited? && outcome.status == 255
              && EndsInDenial(outcome.log, user, host)
              && ProvesRefusal(outcome.log, keyPath)
  {
    if outcome.NoResult? {
      return Indeterminate;
    }
    if outcome.status == 0 {
      return Authenticated;
    }
    var log := outcome.log;
    if outcome.status == 255 && EndsInDenial(log, user, host) {
      for i := 0 to |log|
        invariant forall n | 0 <= n < i && IsOfferOf(log[n], keyPath) :: !AnsweredWithFailure(log, n)
      {
        if IsOfferOf(log[i], keyPath) {
          var refused := ScanOffer(log, i);
          if refused {
            return Rejected;
          }
        }
      }
    }
    v := Indeterminate;
  }
}
