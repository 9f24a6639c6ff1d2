/** Object names: the layer index read from a path and the name of the key_sv object that
    every chunk of a group shares. */
module KeySvNames {

  const LAYER_MARKER := "layer_"

  predicate IsDigit(c: char) {
    '0' <= c <= '9'
  }

  /** The decimal rendering of a natural number. */
  function NatToDec(n: nat): (s: string)
    ensures s != [] && forall i :: 0 <= i < |s| ==> IsDigit(s[i])
  {
    var digit := ('0' as int + n % 10) as char;
    if n < 10 then [digit] else NatToDec(n / 10) + [digit]
  }

  /** The value of a digit string; the empty string counts as zero. */
  function DecToNat(s: string): nat
    requires forall i :: 0 <= i < |s| ==> IsDigit(s[i])
  {
    if s == [] then 0
    else
      assert IsDigit(s[|s| - 1]);
      10 * DecToNat(s[..|s| - 1]) + (s[|s| - 1] as int - '0' as int)
  }

  function IntToDec(n: int): string {
    if n < 0 then "-" + NatToDec(-n) else NatToDec(n)
  }

  /** The uuid entries joined by underscores. */
  function PathId(uuid: seq<int>): string {
    if uuid == [] then ""
    else if |uuid| == 1 then IntToDec(uuid[0])
    else IntToDec(uuid[0]) + "_" + PathId(uuid[1..])
  }

  /** Everything up to and including the last slash. */
  function Directory(path: string): (d: string) {
    if path == [] then []
    else if path[|path| - 1] == '/' then path
    else Directory(path[..|path| - 1])
  }

  function SharedKeySvPath(uuid: seq<int>, layer: int, basePath: string): string {
    Directory(basePath) + SharedName(uuid, layer)
  }

  /** The object of the part without the key_sv tensors. */
  function OtherPath(path: string): string {
    path + "_other"
  }

  predicate MarkerAt(path: string, i: int) {
    0 <= i && i + |LAYER_MARKER| <= |path| && path[i..i + |LAYER_MARKER|] == LAYER_MARKER
  }

  /** The layer index of a path as its definition: the digits after the last marker, -1 when
      there is no marker or no digit after it. */
  ghost predicate IsLayerIdx(path: string, layer: int) {
    if (forall i :: !MarkerAt(path, i)) then layer == -1
    else
      exists i :: MarkerAt(path, i) && (forall k :: k > i ==> !MarkerAt(path, k))
                  && IsNumberAt(path, i + |LAYER_MARKER|, layer)
  }

  ghost predicate IsNumberAt(path: string, start: int, value: int) {
    exists end :: DigitRun(path, start, end)
                  && value == if end == start then -1 else DecToNat(path[start..end])
  }

  /** `path[start..end]` is the longest run of digits starting at `start`. */
  ghost predicate DigitRun(path: string, start: int, end: int) {
    && 0 <= start <= end <= |path|
    && (forall k :: start <= k < end ==> IsDigit(path[k]))
    && (end < |path| ==> !IsDigit(path[end]))
  }

  function LayerIdx(path: string): int {
    var i := LastMarker(path, |path|);
    if i < 0 then -1
    else
      var start := i + |LAYER_MARKER|;
      var end := RunEnd(path, start);
      if end == start then -1 else DecToNat(path[start..end])
  }

  function LastMarker(path: string, n: nat): (i: int)
    requires n <= |path|
    ensures -1 <= i && (i >= 0 ==> MarkerAt(path, i) && i + |LAYER_MARKER| <= n)
    ensures forall k :: k > i && k + |LAYER_MARKER| <= n ==> !MarkerAt(path, k)
  {
    if n < |LAYER_MARKER| then -1
    else if MarkerAt(path, n - |LAYER_MARKER|) then n - |LAYER_MARKER|
    else LastMarker(path, n - 1)
  }

  function RunEnd(path: string, start: nat): (end: nat)
    requires start <= |path|
    ensures DigitRun(path, start, end)
    decreases |path| - start
  {
    if start < |path| && IsDigit(path[start]) then RunEnd(path, start + 1) else start
  }

  method FindMarker(path: string) returns (markerPos: int)
    ensures markerPos < 0 <==> LastMarker(path, |path|) < 0
    ensures markerPos >= 0 ==> markerPos == LastMarker(path, |path|)
  {
    markerPos := |path| - |LAYER_MARKER|;
    while markerPos >= 0 && !MarkerAt(path, markerPos)
      invariant -|LAYER_MARKER| <= markerPos <= |path| - |LAYER_MARKER|
      invariant LastMarker(path, |path|) == LastMarker(path, markerPos + |LAYER_MARKER|)
    {
      markerPos := markerPos - 1;
    }
  }

  method ScanDigits(path: string, start: nat) returns (end: nat)
    requires start <= |path|
    ensures end == RunEnd(path, start)
  {
    end := start;
    while end < |path| && IsDigit(path[end])
      invariant start <= end <= |path| && RunEnd(path, start) == RunEnd(path, end)
    {
      end := end + 1;
    }
  }

  /** `ParseLayerIdx`: search backwards for the marker, then scan digits. */
  method ParseLayerIdx(path: string) returns (layer: int)
    ensures layer == LayerIdx(path)
    ensures IsLayerIdx(path, layer)
  {
    LayerIdxMeaning(path);
    var markerPos := FindMarker(path);
    if markerPos < 0 {
      return -1;
    }
    var start := markerPos + |LAYER_MARKER|;
    var end := ScanDigits(path, start);
    if end == start {
      return -1;
    }
    layer := DecToNat(path[start..end]);
  }

  lemma LayerIdxMeaning(path: string)
    ensures IsLayerIdx(path, LayerIdx(path))
  {
    var i := LastMarker(path, |path|);
    if i < 0 {
      assert forall k :: !MarkerAt(path, k);
    } else {
      assert MarkerAt(path, i) && forall k :: k > i ==> !MarkerAt(path, k);
      assert DigitRun(path, i + |LAYER_MARKER|, RunEnd(path, i + |LAYER_MARKER|));
    }
  }

  // ---- The shared name determines directory, uuid and layer -------------------------------

  lemma {:induction false} DecRoundTrip(n: nat)
    ensures DecToNat(NatToDec(n)) == n
  {
    if n >= 10 {
      DecRoundTrip(n / 10);
      var s := NatToDec(n);
      assert s[..|s| - 1] == NatToDec(n / 10);
    } else {
      assert NatToDec(n)[..0] == [];
    }
  }

  lemma IntToDecInjective(a: int, b: int)
    requires IntToDec(a) == IntToDec(b)
    ensures a == b
  {
    if a < 0 {
      assert IntToDec(a)[0] == '-';
      assert b < 0;
      assert IntToDec(a)[1..] == NatToDec(-a) && IntToDec(b)[1..] == NatToDec(-b);
      DecRoundTrip(-a);
      DecRoundTrip(-b);
    } else {
      assert IsDigit(IntToDec(a)[0]);
      assert b >= 0;
      DecRoundTrip(a);
      DecRoundTrip(b);
    }
  }

  /** Two strings with the same separator split the same way when the separator occurs in
      neither left part. */
  lemma SplitAtFirst(a: string, x: string, b: string, y: string, c: char)
    requires a + [c] + x == b + [c] + y
    requires c !in a && c !in b
    ensures a == b && x == y
  {
    var s := a + [c] + x;
    assert s[|a|] == c && s[|b|] == c;
    assert forall k :: 0 <= k < |a| ==> s[k] == a[k];
    assert forall k :: 0 <= k < |b| ==> s[k] == b[k];
    assert |a| == |b|;
    assert a == s[..|a|] && b == s[..|b|];
    assert x == s[|a| + 1..] && y == s[|b| + 1..];
  }

  /** The same, looking for the last separator. */
  lemma SplitAtLast(a: string, x: string, b: string, y: string, c: char)
    requires a + [c] + x == b + [c] + y
    requires c !in x && c !in y
    ensures a == b && x == y
  {
    var s := a + [c] + x;
    assert s[|a|] == c && s[|b|] == c;
    assert forall k :: |a| < k < |s| ==> s[k] == x[k - |a| - 1];
    assert forall k :: |b| < k < |s| ==> s[k] == y[k - |b| - 1];
    assert |a| == |b|;
    assert a == s[..|a|] && b == s[..|b|];
    assert x == s[|a| + 1..] && y == s[|b| + 1..];
  }

  /** A left part, a fixed middle, a right part and a fixed end determine both parts when
      some character of the middle occurs nowhere before it. */
  lemma SplitAroundMiddle(a1: string, b1: string, a2: string, b2: string, middle: string, end: string, k: nat)
    requires a1 + middle + b1 + end == a2 + middle + b2 + end
    requires k < |middle|
    requires middle[k] !in a1 + middle[..k] && middle[k] !in a2 + middle[..k]
    ensures a1 == a2 && b1 == b2
  {
    var l1, r1 := a1 + middle[..k], middle[k + 1..] + b1 + end;
    var l2, r2 := a2 + middle[..k], middle[k + 1..] + b2 + end;
    assert middle == middle[..k] + [middle[k]] + middle[k + 1..];
    assert a1 + middle + b1 + end == l1 + [middle[k]] + r1;
    assert a2 + middle + b2 + end == l2 + [middle[k]] + r2;
    SplitAtFirst(l1, r1, l2, r2, middle[k]);
    assert a1 == l1[..|l1| - k] && a2 == l2[..|l2| - k];
    var m := |middle| - k - 1;
    assert b1 == r1[m..|r1| - |end|] && b2 == r2[m..|r2| - |end|];
  }

  predicate IdChar(c: char) {
    IsDigit(c) || c == '-' || c == '_'
  }

  lemma IntToDecChars(n: int)
    ensures IntToDec(n) != [] && forall c :: c in IntToDec(n) ==> IsDigit(c) || c == '-'
  {
  }

  lemma {:induction false} PathIdChars(uuid: seq<int>)
    ensures forall c :: c in PathId(uuid) ==> IdChar(c)
    ensures uuid != [] ==> PathId(uuid) != []
  {
    if uuid == [] {
    } else {
      IntToDecChars(uuid[0]);
      PathIdChars(uuid[1..]);
    }
  }

  /** The rendering tells how many entries there are, as far as 0, 1 or more. */
  lemma PathIdSeparators(uuid: seq<int>)
    ensures '_' in PathId(uuid) <==> |uuid| >= 2
    ensures PathId(uuid) == [] <==> uuid == []
  {
    PathIdChars(uuid);
    if |uuid| == 1 {
      IntToDecChars(uuid[0]);
    } else if |uuid| >= 2 {
      assert PathId(uuid)[|IntToDec(uuid[0])|] == '_';
    }
  }

  lemma {:induction false} PathIdInjective(a: seq<int>, b: seq<int>)
    requires PathId(a) == PathId(b)
    ensures a == b
  {
    PathIdSeparators(a);
    PathIdSeparators(b);
    if |a| == 1 {
      IntToDecInjective(a[0], b[0]);
    } else if |a| >= 2 {
      IntToDecChars(a[0]);
      IntToDecChars(b[0]);
      SplitAtFirst(IntToDec(a[0]), PathId(a[1..]), IntToDec(b[0]), PathId(b[1..]), '_');
      IntToDecInjective(a[0], b[0]);
      PathIdInjective(a[1..], b[1..]);
      assert a == [a[0]] + a[1..] && b == [b[0]] + b[1..];
    }
  }

  const MIDDLE := "_layer_"
  const END := "_key_sv"

  /** The part of a shared name after the directory. */
  function SharedName(uuid: seq<int>, layer: int): string {
    PathId(uuid) + MIDDLE + IntToDec(layer) + END
  }

  lemma SharedNameChars(uuid: seq<int>, layer: int)
    ensures '/' !in SharedName(uuid, layer)
  {
    PathIdChars(uuid);
    IntToDecChars(layer);
    assert '/' !in PathId(uuid) && '/' !in IntToDec(layer);
    assert '/' !in MIDDLE && '/' !in END;
    assert '/' !in PathId(uuid) + MIDDLE;
    assert '/' !in PathId(uuid) + MIDDLE + IntToDec(layer);
  }

  lemma SharedNameInjective(u1: seq<int>, l1: int, u2: seq<int>, l2: int)
    requires SharedName(u1, l1) == SharedName(u2, l2)
    ensures u1 == u2 && l1 == l2
  {
    PathIdChars(u1);
    PathIdChars(u2);
    assert MIDDLE[1] == 'l' && MIDDLE[..1] == "_";
    assert 'l' !in PathId(u1) && 'l' !in PathId(u2);
    SplitAroundMiddle(PathId(u1), IntToDec(l1), PathId(u2), IntToDec(l2), MIDDLE, END, 1);
    PathIdInjective(u1, u2);
    IntToDecInjective(l1, l2);
  }

  lemma {:induction false} DirectoryShape(path: string)
    ensures Directory(path) == [] || Directory(path)[|Directory(path)| - 1] == '/'
  {
    if path != [] && path[|path| - 1] != '/' {
      DirectoryShape(path[..|path| - 1]);
    }
  }

  /** A slash-free name after a directory can be told apart from it. */
  lemma DirectorySplit(d1: string, n1: string, d2: string, n2: string)
    requires d1 == [] || d1[|d1| - 1] == '/'
    requires d2 == [] || d2[|d2| - 1] == '/'
    requires '/' !in n1 && '/' !in n2
    requires d1 + n1 == d2 + n2
    ensures d1 == d2 && n1 == n2
  {
    var e1, e2 := ['/'] + d1, ['/'] + d2;
    var f1, f2 := e1[..|e1| - 1], e2[..|e2| - 1];
    assert e1 == f1 + ['/'] && e2 == f2 + ['/'];
    assert f1 + ['/'] + n1 == ['/'] + (d1 + n1);
    assert f2 + ['/'] + n2 == ['/'] + (d2 + n2);
    SplitAtLast(f1, n1, f2, n2, '/');
    assert d1 == e1[1..] && d2 == e2[1..];
  }

  lemma SharedPathParts(u1: seq<int>, l1: int, d1: string, u2: seq<int>, l2: int, d2: string)
    requires d1 == [] || d1[|d1| - 1] == '/'
    requires d2 == [] || d2[|d2| - 1] == '/'
    requires d1 + SharedName(u1, l1) == d2 + SharedName(u2, l2)
    ensures d1 == d2 && u1 == u2 && l1 == l2
  {
    SharedNameChars(u1, l1);
    SharedNameChars(u2, l2);
    DirectorySplit(d1, SharedName(u1, l1), d2, SharedName(u2, l2));
    SharedNameInjective(u1, l1, u2, l2);
  }

  /** Two shared names are equal exactly when directory, uuid and layer are. */
  lemma SharedKeySvPathInjective(u1: seq<int>, l1: int, p1: string, u2: seq<int>, l2: int, p2: string)
    ensures SharedKeySvPath(u1, l1, p1) == SharedKeySvPath(u2, l2, p2)
            <==> Directory(p1) == Directory(p2) && u1 == u2 && l1 == l2
  {
    if SharedKeySvPath(u1, l1, p1) == SharedKeySvPath(u2, l2, p2) {
      DirectoryShape(p1);
      DirectoryShape(p2);
      SharedPathParts(u1, l1, Directory(p1), u2, l2, Directory(p2));
    }
  }

  // ---- The names written out -------------------------------------------------------------------

  lemma {:induction false} DirectoryOf(d: string, name: string)
    requires (d == [] || d[|d| - 1] == '/') && '/' !in name
    ensures Directory(d + name) == d
    decreases |name|
  {
    if name == [] {
      assert d + name == d;
    } else {
      var n := |name| - 1;
      assert (d + name)[..|d| + n] == d + name[..n];
      assert (d + name)[|d| + n] == name[n];
      DirectoryOf(d, name[..n]);
    }
  }

  /** The shared name lies beside the path it is made for, under both halves of the uuid. */
  lemma SharedPathWritten(dir: string, name: string, high: int, low: int, layer: int)
    requires (dir == [] || dir[|dir| - 1] == '/') && '/' !in name
    ensures SharedKeySvPath([high, low], layer, dir + name)
            == dir + (IntToDec(high) + "_" + IntToDec(low) + "_layer_" + IntToDec(layer) + "_key_sv")
  {
    DirectoryOf(dir, name);
    assert [high, low][1..] == [low];
    assert PathId([high, low]) == IntToDec(high) + "_" + IntToDec(low);
    assert SharedName([high, low], layer)
           == IntToDec(high) + "_" + IntToDec(low) + "_layer_" + IntToDec(layer) + "_key_sv";
  }

  /** Decimals have their first digit in front. */
  lemma Decimals(n: int, digit: int)
    requires 0 < n && 0 <= digit < 10
    ensures IntToDec(10 * n + digit) == IntToDec(n) + IntToDec(digit) && IntToDec(-n) == "-" + IntToDec(n)
    ensures IntToDec(0) == "0" && IntToDec(7) == "7"
  {
  }
}
