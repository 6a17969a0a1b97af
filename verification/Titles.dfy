/** Market titles and outcome labels: trimmed, non-empty, and not too long (value_objects/market). */
module Titles {
  import opened Base

  const MAX_TITLE_CHARS: nat := 200
  const MAX_LABEL_CHARS: nat := 100

  // The Unicode White_Space characters.
  predicate IsSpace(c: char) {
    var code := c as int;
    0x09 <= code <= 0x0D || code == 0x20 || code == 0x85 || code == 0xA0 || code == 0x1680 ||
    0x2000 <= code <= 0x200A || code == 0x2028 || code == 0x2029 || code == 0x202F || code == 0x205F || code == 0x3000
  }

  predicate AllSpace(s: string) {
    forall i :: 0 <= i < |s| ==> IsSpace(s[i])
  }

  function TrimStart(s: string): (r: string)
    ensures r != "" ==> !IsSpace(r[0])
  {
    if s == "" || !IsSpace(s[0]) then s else TrimStart(s[1..])
  }

  function TrimEnd(s: string): (r: string)
    ensures |r| <= |s| && r == s[..|r|]
    ensures r != "" ==> !IsSpace(r[|r| - 1])
  {
    if s == "" || !IsSpace(s[|s| - 1]) then s else TrimEnd(s[..|s| - 1])
  }

  function Trim(s: string): string {
    TrimEnd(TrimStart(s))
  }

  function Parse(value: string, max: nat): Result<string, string> {
    var trimmed := Trim(value);
    if trimmed == "" then Err("must not be empty")
    else if |trimmed| > max then Err("too long")
    else Ok(trimmed)
  }

  // s[from..to] starts and ends in something visible, with nothing visible around it.
  predicate Visible(s: string, from: nat, to: nat) {
    from < to <= |s| && !IsSpace(s[from]) && !IsSpace(s[to - 1]) && AllSpace(s[..from]) && AllSpace(s[to..])
  }

  lemma {:induction false} TrimStartAt(s: string, from: nat)
    requires from <= |s| && AllSpace(s[..from]) && (from < |s| ==> !IsSpace(s[from]))
    ensures TrimStart(s) == s[from..]
  {
    if from > 0 {
      assert IsSpace(s[..from][0]);
      assert s[1..][..from - 1] == s[..from][1..];
      TrimStartAt(s[1..], from - 1);
    }
  }

  lemma {:induction false} TrimEndAt(s: string, to: nat)
    requires to <= |s| && AllSpace(s[to..]) && (to > 0 ==> !IsSpace(s[to - 1]))
    ensures TrimEnd(s) == s[..to]
  {
    var n := |s| - 1;
    if to <= n {
      assert IsSpace(s[to..][n - to]);
      assert s[..n][to..] == s[to..][..n - to];
      TrimEndAt(s[..n], to);
    }
  }

  /** Parsing accepts exactly a text whose visible stretch is at most `max` long, and yields that stretch. */
  lemma ParsesVisibleText(value: string, max: nat, from: nat, to: nat)
    requires Visible(value, from, to)
    ensures Parse(value, max) == if to - from <= max then Ok(value[from..to]) else Err("too long")
  {
    TrimStartAt(value, from);
    assert value[from..][to - from..] == value[to..];
    TrimEndAt(value[from..], to - from);
    assert value[from..][..to - from] == value[from..to];
  }

  /** Text with nothing visible in it is refused. */
  lemma BlankIsRefused(value: string, max: nat)
    requires AllSpace(value)
    ensures Parse(value, max).Err?
  {
    assert value[..|value|] == value;
    TrimStartAt(value, |value|);
  }

  /** A stored title or label is accepted again, unchanged, when its row is read back. */
  lemma StoredTextParses(value: string, max: nat)
    requires Parse(value, max).Ok?
    ensures Parse(Parse(value, max).value, max) == Parse(value, max)
  {
    var t := Trim(value);
    assert t[0] == TrimStart(value)[0];
    ParsesVisibleText(t, max, 0, |t|);
  }
}
