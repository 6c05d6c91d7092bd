/** Text of identifiers and object keys: what the worker builds and what the server accepts. */
module ObjectKeys {
  import opened Model

  predicate HexDigit(c: char) {
    '0' <= c <= '9' || 'a' <= c <= 'f' || 'A' <= c <= 'F'
  }

  /** The pattern 8-4-4-4-12 of hexadecimal digits, in either case. */
  predicate UuidText(s: string) {
    && |s| == 36
    && forall i :: 0 <= i < 36 ==> if i in {8, 13, 18, 23} then s[i] == '-' else HexDigit(s[i])
  }

  function LowerChar(c: char): char {
    if 'A' <= c <= 'Z' then c + (32 as char) else c
  }

  function Lower(s: string): string {
    seq(|s|, i requires 0 <= i < |s| => LowerChar(s[i]))
  }

  /** A uuid column compares without regard to case and is shown in lower case. */
  function NamedAttempt(text: string): AttemptId {
    AttemptId(Lower(text))
  }

  predicate ChecksumText(s: string) {
    |s| == 64 && forall i :: 0 <= i < 64 ==> '0' <= s[i] <= '9' || 'a' <= s[i] <= 'f'
  }

  function TrimLeft(s: string): string {
    if s != "" && s[0] == '/' then TrimLeft(s[1..]) else s
  }

  function TrimRight(s: string): string {
    if s != "" && s[|s| - 1] == '/' then TrimRight(s[..|s| - 1]) else s
  }

  /** strings.Trim(s, "/") in Go and s.strip("/") in Python. */
  function Trim(s: string): string {
    TrimRight(TrimLeft(s))
  }

  /** The prefix the server demands of every object key reported under an attempt. */
  function ServerPrefix(artifactPrefix: string, job: string, attempt: string): string {
    var trimmed := Trim(artifactPrefix);
    (if trimmed != "" then trimmed + "/" else trimmed) + job + "/" + attempt + "/"
  }

  function JoinNonEmpty(parts: seq<string>): string {
    if parts == [] then ""
    else
      var rest := JoinNonEmpty(parts[1..]);
      if parts[0] == "" then rest
      else if rest == "" then parts[0]
      else parts[0] + "/" + rest
  }

  /** The object key the worker builds for an upload. */
  function WorkerKey(artifactPrefix: string, job: string, attempt: string, kind: string, uuid: string, name: string): string {
    JoinNonEmpty([Trim(artifactPrefix), job, attempt, kind, uuid + "-" + name])
  }

  predicate PathAccepted(artifactPrefix: string, job: string, attempt: string, key: string) {
    ServerPrefix(artifactPrefix, job, attempt) <= key && !HasDoubleDot(key)
  }
}
