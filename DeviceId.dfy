/** Device identity: the string sanitisers and `normalizeDeviceId`, which
    turns a backend's raw device id into the registry key
    "<backend>:<sanitized id>_<device type>". A `std::string`'s bytes are
    modelled as the characters with the same codes (0..255). */
module DeviceIds {
  import opened MaTypes

  // ---------------------------------------------------------------------
  // Character classes of the C locale

  /** `std::isspace`: space, \t, \n, \v, \f, \r. */
  predicate IsSpace(c: char)
  {
    c == ' ' || (9 <= c as int <= 13)
  }

  /** `std::isprint`: 0x20 to 0x7E. */
  predicate IsPrint(c: char)
  {
    32 <= c as int <= 126
  }

  predicate IsUpper(c: char)
  {
    'A' <= c <= 'Z'
  }

  /** `std::tolower`. */
  function LowerChar(c: char): char
  {
    if IsUpper(c) then (c as int + 32) as char else c
  }

  // ---------------------------------------------------------------------
  // to_lower_in_place

  function Lowercase(s: string): string
  {
    seq(|s|, i requires 0 <= i < |s| => LowerChar(s[i]))
  }

  /** Same length; A-Z become a-z; every other character stays. */
  lemma LowercaseSpec(s: string)
    ensures |Lowercase(s)| == |s|
    ensures forall i :: 0 <= i < |s| && IsUpper(s[i]) ==> Lowercase(s)[i] as int == s[i] as int + 32
    ensures forall i :: 0 <= i < |s| && !IsUpper(s[i]) ==> Lowercase(s)[i] == s[i]
    ensures forall i :: 0 <= i < |s| ==> !IsUpper(Lowercase(s)[i])
  {
  }

  /** `to_lower_in_place`: lowers each character where it stands. */
  method ToLowerInPlace(s: string) returns (r: string)
    ensures r == Lowercase(s)
  {
    r := s;
    for i := 0 to |s|
      invariant |r| == |s|
      invariant forall k :: 0 <= k < i ==> r[k] == LowerChar(s[k])
      invariant forall k :: i <= k < |s| ==> r[k] == s[k]
    {
      r := r[i := LowerChar(r[i])];
    }
  }

  // ---------------------------------------------------------------------
  // trim_in_place

  /** Index of the first non-space character at or after `i`. */
  function LeadFrom(s: string, i: nat): (k: nat)
    requires i <= |s|
    ensures i <= k <= |s|
    ensures forall j :: i <= j < k ==> IsSpace(s[j])
    ensures k < |s| ==> !IsSpace(s[k])
    decreases |s| - i
  {
    if i == |s| || !IsSpace(s[i]) then i else LeadFrom(s, i + 1)
  }

  /** One past the last non-space character before `j`. */
  function TrailFrom(s: string, j: nat): (k: nat)
    requires j <= |s|
    ensures k <= j
    ensures forall i :: k <= i < j ==> IsSpace(s[i])
    ensures k > 0 ==> !IsSpace(s[k - 1])
  {
    if j == 0 || !IsSpace(s[j - 1]) then j else TrailFrom(s, j - 1)
  }

  /** Index of the first non-space character (`find_if` from the front). */
  function LeadCount(s: string): (k: nat)
    ensures k <= |s|
    ensures forall i :: 0 <= i < k ==> IsSpace(s[i])
    ensures k < |s| ==> !IsSpace(s[k])
  {
    LeadFrom(s, 0)
  }

  /** One past the last non-space character (`find_if` from the back). */
  function TrailEnd(s: string): (k: nat)
    ensures k <= |s|
    ensures forall i :: k <= i < |s| ==> IsSpace(s[i])
    ensures k > 0 ==> !IsSpace(s[k - 1])
  {
    TrailFrom(s, |s|)
  }

  /** Erases the leading whitespace, then the trailing whitespace. */
  function Trim(s: string): string
  {
    var t := s[LeadCount(s)..];
    t[..TrailEnd(t)]
  }

  predicate NoOuterSpace(s: string)
  {
    s == [] || (!IsSpace(s[0]) && !IsSpace(s[|s| - 1]))
  }

  /** `trim_in_place`: finds the first non-space character from the front
      and erases what precedes it, then does the same from the back. */
  method TrimInPlace(s: string) returns (r: string)
    ensures r == Trim(s)
  {
    var i := 0;
    while i < |s| && IsSpace(s[i])
      invariant 0 <= i <= |s|
      invariant forall k :: 0 <= k < i ==> IsSpace(s[k])
    {
      i := i + 1;
    }
    assert i == LeadCount(s);
    var t := s[i..];
    var j := |t|;
    while j > 0 && IsSpace(t[j - 1])
      invariant 0 <= j <= |t|
      invariant forall k :: j <= k < |t| ==> IsSpace(t[k])
    {
      j := j - 1;
    }
    assert j == TrailEnd(t);
    r := t[..j];
  }

  /** Only whitespace follows the trimmed piece. */
  lemma TrimTailIsSpace(s: string)
    ensures forall k :: LeadCount(s) + TrailEnd(s[LeadCount(s)..]) <= k < |s| ==> IsSpace(s[k])
  {
    var i := LeadCount(s);
    var t := s[i..];
    var e := TrailEnd(t);
    forall k | i + e <= k < |s| ensures IsSpace(s[k]) {
      var j := k - i;
      assert e <= j < |t|;
      assert IsSpace(t[j]);
      assert s[k] == t[j];
    }
  }

  /** No whitespace at either end of the result. */
  lemma TrimEnds(s: string)
    ensures NoOuterSpace(Trim(s))
  {
    var i := LeadCount(s);
    var t := s[i..];
    var e := TrailEnd(t);
    var r := t[..e];
    if e > 0 {
      assert r[0] == t[0];
      assert r[e - 1] == t[e - 1];
      assert !IsSpace(t[0]);
    }
  }

  /** The result is the contiguous piece of the input between the leading
      and the trailing whitespace (which `LeadCount`, `TrailEnd` and
      `TrimTailIsSpace` say is all that is cut). */
  lemma TrimIsSlice(s: string)
    ensures LeadCount(s) + TrailEnd(s[LeadCount(s)..]) <= |s|
    ensures Trim(s) == s[LeadCount(s)..LeadCount(s) + TrailEnd(s[LeadCount(s)..])]
  {
  }

  lemma TrimIdempotent(s: string)
    ensures Trim(Trim(s)) == Trim(s)
  {
    TrimEnds(s);
    var t := Trim(s);
    assert LeadCount(t) == 0;
    assert t[0..] == t;
    assert TrailEnd(t) == |t|;
    assert t[..|t|] == t;
  }

  // ---------------------------------------------------------------------
  // collapse_ws_in_place

  /** The loop of `collapse_ws_in_place` from the state (out, in_ws). */
  function CollapseFrom(s: string, out: string, inWs: bool): string
    decreases |s|
  {
    if s == [] then out
    else if IsSpace(s[0]) then CollapseFrom(s[1..], out, true)
    else CollapseFrom(s[1..], (if inWs && out != [] then out + " " else out) + [s[0]], false)
  }

  function CollapseWs(s: string): string
  {
    CollapseFrom(s, "", false)
  }

  /** `collapse_ws_in_place`: skips whitespace, and before a character that
      follows whitespace emits one space unless nothing was emitted yet. */
  method CollapseWsInPlace(s: string) returns (r: string)
    ensures r == CollapseWs(s)
  {
    var out := "";
    var inWs := false;
    var i := 0;
    while i < |s|
      invariant 0 <= i <= |s|
      invariant CollapseFrom(s[i..], out, inWs) == CollapseWs(s)
    {
      var c := s[i];
      assert s[i..][1..] == s[i + 1..];
      if IsSpace(c) {
        inWs := true;
        i := i + 1;
        continue;
      }
      if inWs && out != [] {
        out := out + " ";
      }
      out := out + [c];
      inWs := false;
      i := i + 1;
    }
    assert s[i..] == [];
    r := out;
  }

  /** The non-whitespace characters, in order. */
  function NonSpace(s: string): string
  {
    if s == [] then [] else (if IsSpace(s[0]) then [] else [s[0]]) + NonSpace(s[1..])
  }

  lemma {:induction false} NonSpaceAppend(a: string, b: string)
    ensures NonSpace(a + b) == NonSpace(a) + NonSpace(b)
  {
    if a == [] {
      assert [] + b == b;
    } else {
      assert (a + b)[1..] == a[1..] + b;
      NonSpaceAppend(a[1..], b);
    }
  }

  /** Whitespace only as single ' ' characters between two non-whitespace
      characters. */
  predicate SingleSpaced(s: string)
  {
    forall i :: 0 <= i < |s| && IsSpace(s[i]) ==>
      s[i] == ' ' && 0 < i < |s| - 1 && !IsSpace(s[i - 1]) && !IsSpace(s[i + 1])
  }

  lemma ExtendNonSpace(out: string, space: bool, c: char)
    requires !IsSpace(c)
    ensures NonSpace((if space then out + " " else out) + [c]) == NonSpace(out) + [c]
  {
    assert NonSpace([c]) == [c];
    assert NonSpace(" ") == [];
    if space {
      NonSpaceAppend(out, " ");
      NonSpaceAppend(out + " ", [c]);
    } else {
      NonSpaceAppend(out, [c]);
    }
  }

  lemma ExtendSingleSpaced(out: string, space: bool, c: char)
    requires NoOuterSpace(out) && SingleSpaced(out) && !IsSpace(c)
    requires space ==> out != []
    ensures var o := (if space then out + " " else out) + [c];
      NoOuterSpace(o) && SingleSpaced(o)
  {
    var o := (if space then out + " " else out) + [c];
    forall i | 0 <= i < |o| && IsSpace(o[i])
      ensures o[i] == ' ' && 0 < i < |o| - 1 && !IsSpace(o[i - 1]) && !IsSpace(o[i + 1])
    {
      if i < |out| {
        assert o[i] == out[i];
        if i + 1 < |out| {
          assert o[i + 1] == out[i + 1];
        }
        assert o[i - 1] == out[i - 1];
      }
    }
  }

  lemma {:induction false} CollapseFromSpacing(s: string, out: string, inWs: bool)
    requires NoOuterSpace(out) && SingleSpaced(out)
    ensures NoOuterSpace(CollapseFrom(s, out, inWs)) && SingleSpaced(CollapseFrom(s, out, inWs))
    decreases |s|
  {
    if s == [] {
    } else if IsSpace(s[0]) {
      CollapseFromSpacing(s[1..], out, true);
    } else {
      var o := (if inWs && out != [] then out + " " else out) + [s[0]];
      ExtendSingleSpaced(out, inWs && out != [], s[0]);
      CollapseFromSpacing(s[1..], o, false);
    }
  }

  /** Emitting the next non-space character moves it from the input's to
      the output's non-space characters. */
  lemma NonSpaceStep(s: string, out: string, space: bool)
    requires s != [] && !IsSpace(s[0])
    ensures NonSpace((if space then out + " " else out) + [s[0]]) + NonSpace(s[1..]) == NonSpace(out) + NonSpace(s)
  {
    ExtendNonSpace(out, space, s[0]);
    var a, b := NonSpace(out), NonSpace(s[1..]);
    assert NonSpace(s) == [s[0]] + b;
    assert (a + [s[0]]) + b == a + ([s[0]] + b);
  }

  lemma {:induction false} CollapseFromNonSpace(s: string, out: string, inWs: bool)
    ensures NonSpace(CollapseFrom(s, out, inWs)) == NonSpace(out) + NonSpace(s)
    decreases |s|
  {
    if s == [] {
    } else if IsSpace(s[0]) {
      CollapseFromNonSpace(s[1..], out, true);
    } else {
      var o := (if inWs && out != [] then out + " " else out) + [s[0]];
      CollapseFromNonSpace(s[1..], o, false);
      NonSpaceStep(s, out, inWs && out != []);
    }
  }

  /** The collapsed string keeps every non-whitespace character in order,
      has no whitespace at either end, and no whitespace but single spaces
      between two other characters. */
  lemma CollapseWsShape(s: string)
    ensures NonSpace(CollapseWs(s)) == NonSpace(s)
    ensures NoOuterSpace(CollapseWs(s)) && SingleSpaced(CollapseWs(s))
  {
    CollapseFromSpacing(s, "", false);
    CollapseFromNonSpace(s, "", false);
  }

  /** Index of the first whitespace character at or after `i`. */
  function WordEnd(s: string, i: nat): (k: nat)
    requires i <= |s|
    ensures i <= k <= |s|
    ensures forall j :: i <= j < k ==> !IsSpace(s[j])
    ensures k < |s| ==> IsSpace(s[k])
    decreases |s| - i
  {
    if i == |s| || IsSpace(s[i]) then i else WordEnd(s, i + 1)
  }

  /** Dropping a leading non-space character moves the word end by one. */
  lemma WordEndShift(s: string)
    requires s != [] && !IsSpace(s[0])
    ensures WordEnd(s, 0) == 1 + WordEnd(s[1..], 0)
  {
    var t := s[1..];
    var n := WordEnd(t, 0);
    var m := WordEnd(s, 0);
    assert forall j :: 1 <= j <= |t| ==> s[j] == t[j - 1];
  }

  /** The maximal whitespace-free runs of `s`, in order: the words. */
  function Words(s: string): seq<string>
    decreases |s|
  {
    if s == [] then []
    else if IsSpace(s[0]) then Words(s[1..])
    else var k := WordEnd(s, 0); [s[..k]] + Words(s[k..])
  }

  /** The words separated by one space each. */
  function JoinWords(ws: seq<string>): string
  {
    if ws == [] then "" else if |ws| == 1 then ws[0] else ws[0] + " " + JoinWords(ws[1..])
  }

  lemma JoinCons(x: string, rest: seq<string>)
    ensures JoinWords([x] + rest) == if rest == [] then x else x + " " + JoinWords(rest)
  {
    assert ([x] + rest)[1..] == rest;
  }

  /** A character followed by the end or by whitespace forms a word alone. */
  lemma JoinWordsSingle(s: string)
    requires s != [] && !IsSpace(s[0]) && (s[1..] == [] || IsSpace(s[1]))
    ensures JoinWords(Words(s)) ==
      [s[0]] + (if Words(s[1..]) == [] then "" else " " + JoinWords(Words(s[1..])))
  {
    assert WordEnd(s, 0) == 1;
    assert s[..1] == [s[0]];
    assert Words(s) == [[s[0]]] + Words(s[1..]);
    JoinCons([s[0]], Words(s[1..]));
  }

  /** Prepending a character to the first word prepends it to the join. */
  lemma JoinPrepend(c: char, w: string, rest: seq<string>)
    ensures JoinWords([[c] + w] + rest) == [c] + JoinWords([w] + rest)
  {
    JoinCons([c] + w, rest);
    JoinCons(w, rest);
    if rest != [] {
      assert ([c] + w) + " " + JoinWords(rest) == [c] + (w + " " + JoinWords(rest));
    }
  }

  /** The words of a string that starts with a non-space character. */
  lemma WordsCons(s: string)
    requires s != [] && !IsSpace(s[0])
    ensures Words(s) == [s[..WordEnd(s, 0)]] + Words(s[WordEnd(s, 0)..])
  {
  }

  /** The first word of a string that starts with two non-space characters
      is its first character followed by the first word of its tail. */
  lemma WordsShift(s: string)
    requires s != [] && !IsSpace(s[0])
    ensures var t := s[1..]; var n := WordEnd(t, 0);
      Words(s) == [[s[0]] + t[..n]] + Words(t[n..])
  {
    var t := s[1..];
    WordEndShift(s);
    var n := WordEnd(t, 0);
    WordsCons(s);
    assert s[..1 + n] == [s[0]] + t[..n];
    assert s[1 + n..] == t[n..];
  }

  /** A character followed by another starts the tail's first word. */
  lemma JoinWordsLonger(s: string)
    requires s != [] && !IsSpace(s[0]) && s[1..] != [] && !IsSpace(s[1])
    ensures JoinWords(Words(s)) == [s[0]] + JoinWords(Words(s[1..]))
  {
    var t := s[1..];
    var n := WordEnd(t, 0);
    WordsShift(s);
    WordsCons(t);
    JoinPrepend(s[0], t[..n], Words(t[n..]));
  }

  /** The loop from any state, in terms of the words still to come. */
  lemma {:induction false} CollapseFromWords(s: string, out: string, inWs: bool)
    ensures CollapseFrom(s, out, inWs) ==
      if Words(s) == [] then out
      else if out == [] then JoinWords(Words(s))
      else if inWs || IsSpace(s[0]) then out + " " + JoinWords(Words(s))
      else out + JoinWords(Words(s))
    decreases |s|
  {
    if s == [] {
    } else if IsSpace(s[0]) {
      CollapseFromWords(s[1..], out, true);
    } else {
      var t := s[1..];
      var o := (if inWs && out != [] then out + " " else out) + [s[0]];
      CollapseFromWords(t, o, false);
      if t != [] && !IsSpace(s[1]) {
        JoinWordsLonger(s);
        assert Words(t) != [];
        assert t[0] == s[1];
      } else {
        JoinWordsSingle(s);
      }
    }
  }

  /** `collapse_ws_in_place` joins the words of its input with single spaces. */
  lemma CollapseWsIsJoinedWords(s: string)
    ensures CollapseWs(s) == JoinWords(Words(s))
  {
    CollapseFromWords(s, "", false);
  }

  // ---------------------------------------------------------------------
  // strip_nonprintable_in_place

  function StripNonprintable(s: string): string
  {
    if s == [] then [] else (if IsPrint(s[0]) then [s[0]] else []) + StripNonprintable(s[1..])
  }

  /** `strip_nonprintable_in_place`: `remove_if` compacts the printable
      characters to the front and the tail is erased. */
  method StripNonprintableInPlace(s: string) returns (r: string)
    ensures r == StripNonprintable(s)
  {
    r := [];
    for i := 0 to |s|
      invariant r == StripNonprintable(s[..i])
    {
      assert s[..i + 1] == s[..i] + [s[i]];
      StripAppend(s[..i], [s[i]]);
      assert StripNonprintable([s[i]]) == if IsPrint(s[i]) then [s[i]] else [];
      if IsPrint(s[i]) {
        r := r + [s[i]];
      }
    }
    assert s[..|s|] == s;
  }

  lemma StripCons(c: char, t: string)
    ensures StripNonprintable([c] + t) == (if IsPrint(c) then [c] else []) + StripNonprintable(t)
  {
    assert ([c] + t)[1..] == t;
  }

  lemma {:induction false} StripAppend(a: string, b: string)
    ensures StripNonprintable(a + b) == StripNonprintable(a) + StripNonprintable(b)
  {
    if a == [] {
      assert [] + b == b;
    } else {
      var c := a[0];
      var t := a[1..];
      var h: string := if IsPrint(c) then [c] else [];
      assert a == [c] + t;
      assert a + b == [c] + (t + b);
      StripCons(c, t);
      StripCons(c, t + b);
      StripAppend(t, b);
      assert h + (StripNonprintable(t) + StripNonprintable(b)) == (h + StripNonprintable(t)) + StripNonprintable(b);
    }
  }

  lemma {:induction false} StripOnlyPrintable(s: string)
    ensures forall i :: 0 <= i < |StripNonprintable(s)| ==> IsPrint(StripNonprintable(s)[i])
  {
    if s != [] {
      StripOnlyPrintable(s[1..]);
    }
  }

  lemma {:induction false} StripKeepsPrintable(s: string)
    ensures forall i :: 0 <= i < |s| && IsPrint(s[i]) ==> s[i] in StripNonprintable(s)
  {
    if s != [] {
      StripKeepsPrintable(s[1..]);
      forall i | 0 <= i < |s| && IsPrint(s[i]) ensures s[i] in StripNonprintable(s) {
        if i > 0 {
          assert s[i] == s[1..][i - 1];
        }
      }
    }
  }

  lemma {:induction false} StripPrintableIdentity(s: string)
    requires forall i :: 0 <= i < |s| ==> IsPrint(s[i])
    ensures StripNonprintable(s) == s
  {
    if s != [] {
      assert forall i :: 0 <= i < |s[1..]| ==> s[1..][i] == s[i + 1];
      StripPrintableIdentity(s[1..]);
      assert s == [s[0]] + s[1..];
    }
  }

  /** Only printable characters remain, every printable character is kept,
      and the result is the input when that is already printable. */
  lemma StripSpec(s: string)
    ensures forall i :: 0 <= i < |StripNonprintable(s)| ==> IsPrint(StripNonprintable(s)[i])
    ensures forall i :: 0 <= i < |s| && IsPrint(s[i]) ==> s[i] in StripNonprintable(s)
    ensures (forall i :: 0 <= i < |s| ==> IsPrint(s[i])) ==> StripNonprintable(s) == s
  {
    StripOnlyPrintable(s);
    StripKeepsPrintable(s);
    if forall i :: 0 <= i < |s| ==> IsPrint(s[i]) {
      StripPrintableIdentity(s);
    }
  }

  // ---------------------------------------------------------------------
  // Decimal and hexadecimal text

  function DigitChar(d: nat): char
    requires d < 10
  {
    ('0' as int + d) as char
  }

  /** `std::to_string` of a non-negative value. */
  function Digits(n: nat): (r: string)
    ensures |r| >= 1
    ensures forall i :: 0 <= i < |r| ==> '0' <= r[i] <= '9'
  {
    if n < 10 then [DigitChar(n)] else Digits(n / 10) + [DigitChar(n % 10)]
  }

  /** `std::to_string` of an integer. */
  function DecimalString(n: int): string
  {
    if n < 0 then "-" + Digits(-n) else Digits(n)
  }

  function DigitsValue(s: string): int
  {
    if s == [] then 0 else 10 * DigitsValue(s[..|s| - 1]) + (s[|s| - 1] as int - '0' as int)
  }

  /** Reading the digits back gives the number. */
  lemma {:induction false} DigitsRoundTrip(n: nat)
    ensures DigitsValue(Digits(n)) == n
  {
    if n >= 10 {
      DigitsRoundTrip(n / 10);
      var d := Digits(n / 10) + [DigitChar(n % 10)];
      assert d[..|d| - 1] == Digits(n / 10);
    }
  }

  function HexDigit(d: nat): char
    requires d < 16
  {
    if d < 10 then ('0' as int + d) as char else ('a' as int + d - 10) as char
  }

  function HexValue(c: char): int
  {
    if '0' <= c <= '9' then c as int - '0' as int else c as int - 'a' as int + 10
  }

  /** One byte as two zero-padded lowercase hex digits. */
  function HexByte(b: bv8): string
  {
    [HexDigit(b as nat / 16), HexDigit(b as nat % 16)]
  }

  /** The bytes in order, each written as `HexByte`. */
  function HexBytes(bytes: seq<bv8>): (r: string)
    ensures |r| == 2 * |bytes|
  {
    seq(2 * |bytes|, k requires 0 <= k < 2 * |bytes| => HexByte(bytes[k / 2])[k % 2])
  }

  predicate IsLowerHexDigit(c: char)
  {
    '0' <= c <= '9' || 'a' <= c <= 'f'
  }

  lemma HexDigitRoundTrip(d: nat)
    requires d < 16
    ensures IsLowerHexDigit(HexDigit(d)) && HexValue(HexDigit(d)) == d
  {
  }

  lemma HexByteRoundTrip(b: bv8)
    ensures |HexByte(b)| == 2 && IsLowerHexDigit(HexByte(b)[0]) && IsLowerHexDigit(HexByte(b)[1])
    ensures HexValue(HexByte(b)[0]) * 16 + HexValue(HexByte(b)[1]) == b as int
  {
    var n := b as nat;
    HexDigitRoundTrip(n / 16);
    HexDigitRoundTrip(n % 16);
  }

  /** The text of a dsound GUID: two lowercase hex digits per byte, the
      value of each pair being that byte. */
  lemma HexBytesSpec(bytes: seq<bv8>)
    ensures forall i :: 0 <= i < |bytes| ==>
      HexBytes(bytes)[2 * i..2 * i + 2] == HexByte(bytes[i])
    ensures forall i :: 0 <= i < |bytes| ==>
      && IsLowerHexDigit(HexBytes(bytes)[2 * i]) && IsLowerHexDigit(HexBytes(bytes)[2 * i + 1])
      && HexValue(HexBytes(bytes)[2 * i]) * 16 + HexValue(HexBytes(bytes)[2 * i + 1]) == bytes[i] as int
  {
    var r := HexBytes(bytes);
    forall i | 0 <= i < |bytes|
      ensures r[2 * i..2 * i + 2] == HexByte(bytes[i])
      ensures && IsLowerHexDigit(r[2 * i]) && IsLowerHexDigit(r[2 * i + 1])
              && HexValue(r[2 * i]) * 16 + HexValue(r[2 * i + 1]) == bytes[i] as int
    {
      assert (2 * i) / 2 == i && (2 * i) % 2 == 0;
      assert (2 * i + 1) / 2 == i && (2 * i + 1) % 2 == 1;
      assert r[2 * i] == HexByte(bytes[i])[0];
      assert r[2 * i + 1] == HexByte(bytes[i])[1];
      HexByteRoundTrip(bytes[i]);
    }
  }

  /** The text of a custom id: integer, string and pointer parts that are
      present, joined by " | ". */
  function CustomText(i: int, s: string, p: Option<string>): string
  {
    var a := if i != 0 then DecimalString(i) else "";
    var b := if s != "" then (if |a| > 0 then a + " | " else a) + s else a;
    if p.Some? then (if |b| > 0 then b + " | " else b) + p.value else b
  }

  /** The raw text the backend's switch case produces; `None` for a backend
      outside the table. */
  function RawIdText(backend: Backend, id: DeviceIdUnion): Option<string>
  {
    match backend
    case Wasapi => Some(id.wasapi)
    case DSound => Some(HexBytes(id.dsound))
    case WinMM => Some(DecimalString(id.winmm))
    case Alsa => Some(id.alsa)
    case PulseAudio => Some(id.pulse)
    case Sndio => Some(id.sndio)
    case Audio4 => Some(id.audio4)
    case CoreAudio => Some(id.coreaudio)
    case OSS => Some(id.oss)
    case WebAudio => Some(id.webaudio)
    case AAudio => Some(DecimalString(id.aaudio))
    case Jack => Some(DecimalString(id.jack))
    case NullBackend => Some(DecimalString(id.nullbackend))
    case OpenSL => Some(DecimalString(id.opensl))
    case Custom => Some(CustomText(id.customI, id.customS, id.customP))
    case OtherBackend(_) => None
  }

  function BackendTag(backend: Backend): string
  {
    match backend
    case Wasapi => "wasapi"
    case DSound => "dsound"
    case WinMM => "winmm"
    case Alsa => "alsa"
    case PulseAudio => "pulse"
    case Sndio => "sndio"
    case Audio4 => "audio4"
    case CoreAudio => "coreaudio"
    case OSS => "oss"
    case WebAudio => "webaudio"
    case AAudio => "aaudio"
    case Jack => "jack"
    case OpenSL => "opensl"
    case NullBackend => "null"
    case Custom => "custom"
    case OtherBackend(_) => "unknown"
  }

  /** The four sanitisers in the order the source applies them. */
  function Sanitize(raw: string): string
  {
    Lowercase(CollapseWs(Trim(StripNonprintable(raw))))
  }

  /** `normalizeDeviceId`: `None` is a `false` return with `*betterId` left
      untouched; `outPointer` says whether `betterId` is non-null. */
  function NormalizeDeviceId(backend: Backend, id: DeviceIdUnion, deviceType: DeviceType, outPointer: bool): Option<string>
  {
    if !outPointer then None
    else
      match RawIdText(backend, id)
      case None => None
      case Some(raw) =>
        if raw == "" then None
        else Some(Key(BackendTag(backend), Sanitize(raw), deviceType))
  }

  /** The final key "<tag>:<sanitized id>_<device type>". */
  function Key(tag: string, sanitized: string, deviceType: DeviceType): string
  {
    tag + ":" + sanitized + "_" + DecimalString(deviceType.Code())
  }

  /** The key starts with the tag and a colon and ends with the digit of
      the device type's code. */
  lemma KeyShape(tag: string, sanitized: string, deviceType: DeviceType)
    ensures var key := Key(tag, sanitized, deviceType);
      && key == tag + ":" + sanitized + "_" + [DigitChar(deviceType.Code())]
      && key[..|tag|] == tag && key[|tag|] == ':' && key[|key| - 1] == DigitChar(deviceType.Code())
  {
    var key := Key(tag, sanitized, deviceType);
    assert DecimalString(deviceType.Code()) == [DigitChar(deviceType.Code())];
    assert key == tag + (":" + sanitized + "_" + [DigitChar(deviceType.Code())]);
  }

  /** Normalisation fails exactly for a null out-pointer, a backend outside
      the table and an empty raw id; the dsound raw id is 32 hex digits. */
  lemma NormalizeFailures(backend: Backend, id: DeviceIdUnion, deviceType: DeviceType, outPointer: bool)
    requires |id.dsound| == 16
    ensures NormalizeDeviceId(backend, id, deviceType, outPointer).None? <==>
      !outPointer || backend.OtherBackend? || RawIdText(backend, id) == Some("")
    ensures backend == DSound ==> |RawIdText(backend, id).value| == 32
  {
  }

  /** Lowering letters keeps whitespace where it was. */
  lemma LowercaseKeepsSpacing(c: string)
    requires forall k :: 0 <= k < |c| ==> IsPrint(c[k])
    requires NoOuterSpace(c) && SingleSpaced(c)
    ensures forall k :: 0 <= k < |Lowercase(c)| ==> IsPrint(Lowercase(c)[k]) && !IsUpper(Lowercase(c)[k])
    ensures NoOuterSpace(Lowercase(c)) && SingleSpaced(Lowercase(c))
  {
    var mid := Lowercase(c);
    assert forall k :: 0 <= k < |mid| ==> (IsSpace(mid[k]) <==> IsSpace(c[k])) && (mid[k] == ' ' <==> c[k] == ' ');
  }

  /** The sanitized id is printable, lowercase and single-spaced with no
      whitespace at either end. */
  lemma SanitizeShape(raw: string)
    ensures forall i :: 0 <= i < |Sanitize(raw)| ==> IsPrint(Sanitize(raw)[i]) && !IsUpper(Sanitize(raw)[i])
    ensures NoOuterSpace(Sanitize(raw)) && SingleSpaced(Sanitize(raw))
  {
    var p := StripNonprintable(raw);
    StripSpec(raw);
    var t := Trim(p);
    TrimIsSlice(p);
    var i := LeadCount(p);
    assert forall k :: 0 <= k < |t| ==> IsPrint(t[k]) by {
      forall k | 0 <= k < |t| ensures IsPrint(t[k]) {
        assert t[k] == p[i + k];
      }
    }
    var c := CollapseWs(t);
    CollapseWsShape(t);
    CollapsePrintable(t, "", false);
    LowercaseKeepsSpacing(c);
  }

  /** On success the key is "<tag>:<sanitized>_<type code>" with the tag
      from the backend table. */
  lemma NormalizeKeyShape(backend: Backend, id: DeviceIdUnion, deviceType: DeviceType, outPointer: bool)
    requires NormalizeDeviceId(backend, id, deviceType, outPointer).Some?
    ensures NormalizeDeviceId(backend, id, deviceType, outPointer).value ==
      Key(BackendTag(backend), Sanitize(RawIdText(backend, id).value), deviceType)
  {
  }

  lemma {:induction false} CollapsePrintable(s: string, out: string, inWs: bool)
    requires forall k :: 0 <= k < |s| ==> IsPrint(s[k])
    requires forall k :: 0 <= k < |out| ==> IsPrint(out[k])
    ensures forall k :: 0 <= k < |CollapseFrom(s, out, inWs)| ==> IsPrint(CollapseFrom(s, out, inWs)[k])
    decreases |s|
  {
    if s != [] {
      assert forall k :: 0 <= k < |s[1..]| ==> IsPrint(s[1..][k]) by {
        forall k | 0 <= k < |s[1..]| ensures IsPrint(s[1..][k]) {
          assert s[1..][k] == s[k + 1];
        }
      }
      if IsSpace(s[0]) {
        CollapsePrintable(s[1..], out, true);
      } else {
        CollapsePrintable(s[1..], (if inWs && out != [] then out + " " else out) + [s[0]], false);
      }
    }
  }

  /** Keys of different device types never collide: the last character is
      the device type's code. */
  lemma KeysOfDifferentTypesDiffer(b1: Backend, id1: DeviceIdUnion, t1: DeviceType,
                                   b2: Backend, id2: DeviceIdUnion, t2: DeviceType)
    requires NormalizeDeviceId(b1, id1, t1, true).Some? && NormalizeDeviceId(b2, id2, t2, true).Some?
    requires t1 != t2
    ensures NormalizeDeviceId(b1, id1, t1, true) != NormalizeDeviceId(b2, id2, t2, true)
  {
    NormalizeKeyShape(b1, id1, t1, true);
    NormalizeKeyShape(b2, id2, t2, true);
    KeyShape(BackendTag(b1), Sanitize(RawIdText(b1, id1).value), t1);
    KeyShape(BackendTag(b2), Sanitize(RawIdText(b2, id2).value), t2);
  }

  /** The emptiness test comes before sanitising: a whitespace-only id
      still normalises, to an empty middle part. */
  lemma WhitespaceOnlyIdSucceeds(id: DeviceIdUnion)
    requires id.alsa == "   "
    ensures NormalizeDeviceId(Alsa, id, Playback, true) == Some("alsa:_1")
  {
    var p := StripNonprintable("   ");
    assert StripNonprintable(" ") == " ";
    assert StripNonprintable("  ") == " " + StripNonprintable(" ");
    assert p == "   ";
    assert LeadCount(p[2..]) == 1;
    assert LeadCount(p[1..]) == 2;
    assert LeadCount(p) == 3;
    assert Trim(p) == "";
    assert Sanitize("   ") == "";
    assert DecimalString(Playback.Code()) == "1";
    assert RawIdText(Alsa, id) == Some("   ");
    assert "alsa" + ":" + "" + "_" + "1" == "alsa:_1";
  }
}
