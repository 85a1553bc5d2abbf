/** The text surgery at the heart of scripts/update-frontend-config.js: find the
    contract-configuration comment in the payment composable's source, scan forward
    counting braces to the `}` that closes the first `{` after it, and replace that
    span with freshly generated configuration text. Reading and writing the files,
    and generating the text, stay outside the model: the file content and the new
    configuration text are inputs, the new content (if any) is the output. */
module ConfigSplice {
  import opened Js

  /** The comment that opens the configuration block. */
  const Marker: string := "// 合约配置"

  /** `s.indexOf(sub, from)` restricted to indices at or after `from`. */
  function IndexFrom(s: string, sub: string, from: nat): (r: int)
    ensures r == -1 || (from <= r && OccursAt(s, sub, r))
    ensures r == -1 ==> forall i :: from <= i ==> !OccursAt(s, sub, i)
    ensures r >= 0 ==> forall i :: from <= i < r ==> !OccursAt(s, sub, i)
    decreases |s| - from
  {
    if from + |sub| > |s| then -1
    else if OccursAt(s, sub, from) then from
    else IndexFrom(s, sub, from + 1)
  }

  /** `s.indexOf(sub)`: the first index at which `sub` occurs, or -1. */
  function IndexOf(s: string, sub: string): (r: int)
    ensures r == -1 <==> forall i :: !OccursAt(s, sub, i)
    ensures r >= 0 ==> OccursAt(s, sub, r) && forall i :: 0 <= i < r ==> !OccursAt(s, sub, i)
  {
    IndexFrom(s, sub, 0)
  }

  /** The number of '{' minus the number of '}' in `t`. */
  function Balance(t: string): int
  {
    if t == [] then 0 else Balance(t[..|t| - 1]) + Delta(t[|t| - 1])
  }

  /** How one character moves the brace count. */
  function Delta(c: char): int
  {
    if c == '{' then 1 else if c == '}' then -1 else 0
  }

  /** The running count is the number of opening braces minus the number of
      closing ones, whatever their order. */
  lemma {:induction false} BalanceCounts(t: string)
    ensures Balance(t) == multiset(t)['{'] as int - multiset(t)['}'] as int
  {
    if t != [] {
      var init := t[..|t| - 1];
      BalanceCounts(init);
      assert t == init + [t[|t| - 1]];
      assert multiset(t) == multiset(init) + multiset{t[|t| - 1]};
    }
  }

  /** Index `j` holds a '}' that brings the count kept since `start` back to zero
      after at least one '{' has been seen: a candidate end of the block. */
  predicate ClosesAt(content: string, start: int, j: int)
  {
    0 <= start <= j < |content| && content[j] == '}' &&
    '{' in content[start..j] && Balance(content[start..j + 1]) == 0
  }

  /** What the scan computes: one past the FIRST closing brace, or `start` itself
      when no brace ever closes the block. */
  predicate IsConfigEnd(content: string, start: int, end: int)
  {
    (end == start && forall j :: start <= j < |content| ==> !ClosesAt(content, start, j)) ||
    (start < end <= |content| && ClosesAt(content, start, end - 1) &&
     forall j :: start <= j < end - 1 ==> !ClosesAt(content, start, j))
  }

  /** The brace-counting scan of the script, as its loop runs: `braceCount`,
      `foundFirstBrace` and `endIndex` are updated character by character and the
      loop stops at the first match. */
  method FindConfigEnd(content: string, startIndex: nat) returns (endIndex: int)
    requires startIndex <= |content|
    ensures IsConfigEnd(content, startIndex, endIndex)
  {
    var braceCount := 0;
    endIndex := startIndex;
    var foundFirstBrace := false;
    var i := startIndex;
    while i < |content|
      invariant startIndex <= i <= |content|
      invariant braceCount == Balance(content[startIndex..i])
      invariant foundFirstBrace <==> '{' in content[startIndex..i]
      invariant endIndex == startIndex
      invariant forall j :: startIndex <= j < i ==> !ClosesAt(content, startIndex, j)
    {
      ghost var seen, next := content[startIndex..i], content[startIndex..i + 1];
      assert next == seen + [content[i]];
      assert next[..|next| - 1] == seen;
      assert Balance(next) == braceCount + Delta(content[i]);
      assert '{' in next <==> '{' in seen || content[i] == '{';
      assert content[startIndex..i] == seen;
      if content[i] == '{' {
        foundFirstBrace := true;
        braceCount := braceCount + 1;
      } else if content[i] == '}' {
        braceCount := braceCount - 1;
        if foundFirstBrace && braceCount == 0 {
          endIndex := i + 1;
          assert ClosesAt(content, startIndex, i);
          return;
        }
      }
      assert !ClosesAt(content, startIndex, i);
      i := i + 1;
    }
  }

  /** The end the scan reports is the only one the specification allows. */
  lemma ConfigEndUnique(content: string, start: int, e1: int, e2: int)
    requires IsConfigEnd(content, start, e1) && IsConfigEnd(content, start, e2)
    ensures e1 == e2
  {
  }

  /** `content.substring(0, start) + config + content.substring(end)`. */
  function Splice(content: string, config: string, start: int, end: int): (r: string)
    requires 0 <= start <= end <= |content|
    ensures |r| == |content| - (end - start) + |config|
    ensures r[..start] == content[..start]
    ensures r[start..start + |config|] == config
    ensures r[start + |config|..] == content[end..]
  {
    var before, after := content[..start], content[end..];
    assert (before + config + after)[..start] == before;
    assert (before + config + after)[start..start + |config|] == config;
    assert (before + config + after)[start + |config|..] == after;
    before + config + after
  }

  /** When nothing closes the block, the new text is inserted in front of the
      marker and every character of the old content survives. */
  lemma NoCloseInsertsOnly(content: string, config: string, start: int)
    requires 0 <= start <= |content|
    ensures Splice(content, config, start, start) == content[..start] + config + content[start..]
    ensures |Splice(content, config, start, start)| == |content| + |config|
  {
  }

  /** The replacement step of the script: no output when the marker is missing
      (nothing is written), otherwise the content with the block from the marker to
      its closing brace replaced by `config`. */
  method UpdateContractConfig(content: string, config: string)
    returns (r: Option<string>, startIndex: int, endIndex: int)
    ensures r.None? <==> forall i :: !OccursAt(content, Marker, i)
    ensures r.Some? ==>
      && startIndex == IndexOf(content, Marker)
      && IsConfigEnd(content, startIndex, endIndex)
      && 0 <= startIndex <= endIndex <= |content|
      && r.value == Splice(content, config, startIndex, endIndex)
  {
    startIndex := IndexOf(content, Marker);
    if startIndex == -1 {
      return None, startIndex, startIndex;
    }
    endIndex := FindConfigEnd(content, startIndex);
    r := Some(Splice(content, config, startIndex, endIndex));
  }
}
