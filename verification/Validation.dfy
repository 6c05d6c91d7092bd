/** The checks on a submitted definition, as the loops that make them. */
module Validation {
  import opened Model

  method HasNul(text: string) returns (found: bool)
    ensures found <==> '\0' in text
  {
    var i := 0;
    while i < |text|
      invariant 0 <= i <= |text| && '\0' !in text[..i]
    {
      if text[i] == '\0' { return true; }
      i := i + 1;
    }
    assert text[..i] == text;
    return false;
  }

  method CommandHasNul(command: seq<string>) returns (found: bool)
    ensures found <==> exists i :: 0 <= i < |command| && '\0' in command[i]
  {
    var i := 0;
    while i < |command|
      invariant 0 <= i <= |command| && forall k :: 0 <= k < i ==> '\0' !in command[k]
    {
      found := HasNul(command[i]);
      if found { return; }
      i := i + 1;
    }
    return false;
  }

  predicate BadVariable(key: string, value: string) {
    !EnvironmentKey(key) || '\0' in value || "RUNGRID_" <= key
  }

  method HasBadVariable(environment: map<string, string>) returns (found: bool)
    ensures found <==> exists k :: k in environment && BadVariable(k, environment[k])
  {
    var rest := environment.Keys;
    while rest != {}
      invariant rest <= environment.Keys
      invariant forall k :: k in environment && k !in rest ==> !BadVariable(k, environment[k])
      decreases rest
    {
      var k :| k in rest;
      var nul := HasNul(environment[k]);
      if !EnvironmentKey(k) || nul || "RUNGRID_" <= k {
        assert BadVariable(k, environment[k]);
        return true;
      }
      rest := rest - {k};
    }
    return false;
  }

  method HasTwoDots(text: string) returns (found: bool)
    ensures found <==> HasDoubleDot(text)
  {
    var i := 0;
    while i < |text| - 1
      invariant 0 <= i && forall k :: 0 <= k < i && k < |text| - 1 ==> !(text[k] == '.' && text[k + 1] == '.')
    {
      if text[i] == '.' && text[i + 1] == '.' { return true; }
      i := i + 1;
    }
    return false;
  }

  /** A definition is admitted exactly when it is valid. */
  method Admits(d: Definition) returns (ok: bool)
    ensures ok <==> d.Validate()
  {
    if |d.name| == 0 || |d.name| > 256 || |d.idempotencyKey| == 0 || |d.idempotencyKey| > 256 { return false; }
    if |d.command| == 0 || d.command[0] == "" || |d.command| > 1024 { return false; }
    var nul := CommandHasNul(d.command);
    if nul { return false; }
    var r := d.resources;
    if r.cpu < 1 || r.cpu > 1000000 || r.memoryMb < 1 || r.memoryMb > 1000000000 || r.gpu < 0 || r.gpu > 1000000 { return false; }
    if d.maxAttempts < 1 || d.maxAttempts > 100 || d.timeoutSeconds < 1 || d.timeoutSeconds > 604800 { return false; }
    var bad := HasBadVariable(d.environment);
    if bad { return false; }
    var dots := HasTwoDots(d.artifactPrefix);
    if "/" <= d.artifactPrefix || dots || |d.artifactPrefix| > 512 { return false; }
    return true;
  }
}
