/**
 * The allowed-origins list and the origin test: the `ALLOWED_ORIGINS` setting is
 * split on commas, each part trimmed and empty parts dropped, with `"*"` standing
 * for an unset or empty setting; `"*"` in the list admits every origin.
 */
module Origins {
  import opened Wrappers

  /**
   * The characters JavaScript's `String.prototype.trim` removes (WhiteSpace and
   * LineTerminator), by code point: tab, line feed, vertical tab, form feed, carriage
   * return, space, no-break space, the Unicode space separators, the line and
   * paragraph separators, and the byte order mark.
   */
  predicate IsSpace(c: char) {
    var n := c as int;
    || (0x9 <= n <= 0xD) || n == 0x20 || n == 0xA0 || n == 0x1680
    || (0x2000 <= n <= 0x200A) || n == 0x2028 || n == 0x2029 || n == 0x202F
    || n == 0x205F || n == 0x3000 || n == 0xFEFF
  }

  ghost predicate AllSpace(s: string) {
    forall i :: 0 <= i < |s| ==> IsSpace(s[i])
  }

  /** Neither end of `s` is a space character. */
  predicate IsTrimmed(s: string) {
    s == [] || (!IsSpace(s[0]) && !IsSpace(s[|s| - 1]))
  }

  /** The index of the first non-space character at or after `from`, or `|s|` when there is none. */
  function SkipSpaces(s: string, from: nat): (k: nat)
    requires from <= |s|
    ensures from <= k <= |s|
    ensures forall i | from <= i < k :: IsSpace(s[i])
    ensures k == |s| || !IsSpace(s[k])
    decreases |s| - from
  {
    if from < |s| && IsSpace(s[from]) then SkipSpaces(s, from + 1) else from
  }

  /** The index just past the last non-space character before `to`, or `0` when there is none. */
  function SkipSpacesBack(s: string, to: nat): (k: nat)
    requires to <= |s|
    ensures k <= to
    ensures forall i | k <= i < to :: IsSpace(s[i])
    ensures k == 0 || !IsSpace(s[k - 1])
  {
    if to > 0 && IsSpace(s[to - 1]) then SkipSpacesBack(s, to - 1) else to
  }

  /** `s.trimStart()`: the suffix left after the leading spaces. */
  function TrimStart(s: string): (r: string)
    ensures |r| <= |s| && r == s[|s| - |r|..]
    ensures AllSpace(s[..|s| - |r|])
    ensures r == [] || !IsSpace(r[0])
  {
    var k := SkipSpaces(s, 0);
    assert AllSpace(s[..k]) by {
      forall i | 0 <= i < k ensures IsSpace(s[..k][i]) { assert s[..k][i] == s[i]; }
    }
    s[k..]
  }

  /** `s.trimEnd()`: the prefix left before the trailing spaces. */
  function TrimEnd(s: string): (r: string)
    ensures |r| <= |s| && r == s[..|r|]
    ensures AllSpace(s[|r|..])
    ensures r == [] || !IsSpace(r[|r| - 1])
  {
    var k := SkipSpacesBack(s, |s|);
    assert AllSpace(s[k..]) by {
      forall i | 0 <= i < |s| - k ensures IsSpace(s[k..][i]) { assert s[k..][i] == s[k + i]; }
    }
    s[..k]
  }

  /** `s.trim()`. */
  function Trim(s: string): (r: string)
    ensures IsTrimmed(r)
    ensures |r| <= |s|
  {
    var t := TrimStart(s);
    var r := TrimEnd(t);
    assert r != [] ==> r[0] == t[0];
    r
  }

  /** Leading spaces followed by a non-space are exactly what `trimStart` removes. */
  lemma TrimStartSkips(a: string, u: string)
    requires AllSpace(a)
    requires u == [] || !IsSpace(u[0])
    ensures TrimStart(a + u) == u
  {
    var s := a + u;
    var k := SkipSpaces(s, 0);
    assert s[|a|..] == u;
  }

  /** A non-space followed by trailing spaces: exactly the spaces are what `trimEnd` removes. */
  lemma TrimEndSkips(u: string, b: string)
    requires AllSpace(b)
    requires u == [] || !IsSpace(u[|u| - 1])
    ensures TrimEnd(u + b) == u
  {
    var s := u + b;
    var k := SkipSpacesBack(s, |s|);
    assert s[..|u|] == u;
  }

  lemma TrimStartPadding(s: string) returns (a: string)
    ensures AllSpace(a) && s == a + TrimStart(s)
  {
    a := s[..|s| - |TrimStart(s)|];
  }

  lemma TrimEndPadding(t: string) returns (b: string)
    ensures AllSpace(b) && t == TrimEnd(t) + b
  {
    b := t[|TrimEnd(t)|..];
  }

  /** `trim` removes exactly the surrounding spaces: `s` is `Trim(s)` padded with spaces. */
  lemma TrimPadding(s: string) returns (a: string, b: string)
    ensures AllSpace(a) && AllSpace(b) && s == a + Trim(s) + b
  {
    a := TrimStartPadding(s);
    b := TrimEndPadding(TrimStart(s));
  }

  /** ... and no other: a trimmed string padded with spaces trims back to itself. */
  lemma {:induction false} TrimUnpads(a: string, t: string, b: string)
    requires AllSpace(a) && AllSpace(b) && IsTrimmed(t)
    ensures Trim(a + t + b) == t
  {
    if t == [] {
      assert a + t + b == a + b;
      assert TrimStart(a + b) == [];
      assert TrimEnd([]) == [];
    } else {
      assert a + t + b == a + (t + b);
      TrimStartSkips(a, t + b);
      TrimEndSkips(t, b);
    }
  }

  lemma TrimIdempotent(s: string)
    ensures Trim(Trim(s)) == Trim(s)
  {
    var t := Trim(s);
    assert [] + t + [] == t;
    TrimUnpads([], t, []);
  }

  /** `s.split(",")`: the pieces between commas, an empty string giving `[""]`. */
  function Split(s: string): (parts: seq<string>)
    ensures |parts| >= 1
    ensures forall p | p in parts :: ',' !in p
  {
    if s == [] then [""]
    else
      var rest := Split(s[1..]);
      if s[0] == ',' then [""] + rest else [[s[0]] + rest[0]] + rest[1..]
  }

  /** `parts.join(",")`, the inverse of `Split`. */
  function Join(parts: seq<string>): string
    requires |parts| >= 1
  {
    if |parts| == 1 then parts[0] else parts[0] + "," + Join(parts[1..])
  }

  /** Splitting loses nothing: joining the pieces gives back the setting. */
  lemma {:induction false} JoinSplit(s: string)
    ensures Join(Split(s)) == s
  {
    if s != [] {
      var rest := Split(s[1..]);
      JoinSplit(s[1..]);
      if s[0] == ',' {
        assert ([""] + rest)[1..] == rest;
        assert s == [','] + s[1..];
      } else {
        var parts := [[s[0]] + rest[0]] + rest[1..];
        if |rest| == 1 {
          assert s == [s[0]] + s[1..];
        } else {
          assert parts[1..] == rest[1..];
          assert Join(rest) == rest[0] + "," + Join(rest[1..]);
          assert s == [s[0]] + s[1..];
        }
      }
    }
  }

  /** Splitting a comma-free prefix onto the pieces of the rest. */
  lemma {:induction false} SplitPrefix(u: string, w: string)
    requires ',' !in u
    ensures Split(u + w) == [u + Split(w)[0]] + Split(w)[1..]
  {
    if u != [] {
      assert (u + w)[1..] == u[1..] + w;
      assert ',' !in u[1..] by {
        forall i | 0 <= i < |u[1..]| ensures u[1..][i] != ',' { assert u[1..][i] == u[i + 1]; }
      }
      SplitPrefix(u[1..], w);
      assert [u[0]] + (u[1..] + Split(w)[0]) == u + Split(w)[0];
    } else {
      assert u + w == w;
      assert u + Split(w)[0] == Split(w)[0];
      assert Split(w) == [Split(w)[0]] + Split(w)[1..];
    }
  }

  /** Joining comma-free pieces and splitting again gives back the pieces. */
  lemma {:induction false} SplitJoin(parts: seq<string>)
    requires |parts| >= 1
    requires forall p | p in parts :: ',' !in p
    ensures Split(Join(parts)) == parts
  {
    if |parts| == 1 {
      SplitPrefix(parts[0], "");
      assert parts[0] + "" == parts[0];
    } else {
      SplitJoin(parts[1..]);
      var w := "," + Join(parts[1..]);
      assert Split(w) == [""] + parts[1..] by {
        assert w[0] == ',' && w[1..] == Join(parts[1..]);
      }
      assert parts[0] + "," + Join(parts[1..]) == parts[0] + w;
      SplitPrefix(parts[0], w);
      assert parts[0] + "" == parts[0];
    }
  }

  /** `.map(s => s.trim())`. */
  function TrimAll(parts: seq<string>): seq<string> {
    seq(|parts|, i requires 0 <= i < |parts| => Trim(parts[i]))
  }

  /** `.filter(Boolean)` on strings: keeps the non-empty ones, in order. */
  function DropEmpty(parts: seq<string>): (r: seq<string>)
    ensures forall x | x in r :: x != "" && x in parts
    ensures forall x | x in parts && x != "" :: x in r
    ensures |r| <= |parts|
  {
    if parts == [] then []
    else if parts[0] == "" then DropEmpty(parts[1..])
    else [parts[0]] + DropEmpty(parts[1..])
  }

  /** The comma-separated list actually parsed: the setting, or `"*"` when it is unset or empty. */
  function OriginSource(setting: Option<string>): string {
    if setting.Some? && setting.value != "" then setting.value else "*"
  }

  /** A trimmed piece is a slice of the piece, so it holds no comma if the piece holds none. */
  lemma TrimKeepsNoComma(p: string)
    requires ',' !in p
    ensures ',' !in Trim(p)
  {
    var a, b := TrimPadding(p);
    forall k | 0 <= k < |Trim(p)| ensures Trim(p)[k] != ',' {
      assert Trim(p)[k] == p[|a| + k];
    }
  }

  /** Trimmed comma-free pieces are trimmed and comma-free. */
  lemma TrimAllPieces(parts: seq<string>)
    requires forall p | p in parts :: ',' !in p
    ensures forall o | o in TrimAll(parts) :: IsTrimmed(o) && ',' !in o
  {
    forall i | 0 <= i < |parts| ensures IsTrimmed(TrimAll(parts)[i]) && ',' !in TrimAll(parts)[i] {
      assert parts[i] in parts;
      TrimKeepsNoComma(parts[i]);
    }
  }

  /** Every piece shows up trimmed. */
  lemma TrimAllCovers(parts: seq<string>)
    ensures forall p | p in parts :: Trim(p) in TrimAll(parts)
  {
    forall p | p in parts ensures Trim(p) in TrimAll(parts) {
      var i :| 0 <= i < |parts| && parts[i] == p;
      assert TrimAll(parts)[i] == Trim(p);
    }
  }

  /** `ORIGINS`: the setting split on commas, each part trimmed, empty parts dropped. */
  function ParseOrigins(setting: Option<string>): (origins: seq<string>)
    ensures forall o | o in origins :: o != "" && IsTrimmed(o) && ',' !in o
    ensures forall p | p in Split(OriginSource(setting)) && Trim(p) != "" :: Trim(p) in origins
  {
    var parts := Split(OriginSource(setting));
    TrimAllPieces(parts);
    TrimAllCovers(parts);
    DropEmpty(TrimAll(parts))
  }

  /** Every entry of the list is the trimmed form of one comma-separated piece of the setting. */
  lemma ParsedEntryOrigin(setting: Option<string>, o: string) returns (p: string)
    requires o in ParseOrigins(setting)
    ensures p in Split(OriginSource(setting)) && o == Trim(p)
  {
    var parts := Split(OriginSource(setting));
    var trimmed := TrimAll(parts);
    assert o in trimmed;
    var i :| 0 <= i < |trimmed| && trimmed[i] == o;
    p := parts[i];
  }

  /** No entry comes from anywhere but the setting: each is the trimmed form of one of its pieces. */
  lemma ParsedEntriesFromSetting(setting: Option<string>)
    ensures forall o | o in ParseOrigins(setting) :: exists p | p in Split(OriginSource(setting)) :: o == Trim(p)
  {
    forall o | o in ParseOrigins(setting) ensures exists p | p in Split(OriginSource(setting)) :: o == Trim(p) {
      var p := ParsedEntryOrigin(setting, o);
    }
  }

  /** With `ALLOWED_ORIGINS` unset or empty, the list is exactly `["*"]`. */
  lemma UnsetMeansWildcard(setting: Option<string>)
    requires setting.None? || setting.value == ""
    ensures ParseOrigins(setting) == ["*"]
  {
    assert OriginSource(setting) == "*";
    assert Split("*") == ["*"] by {
      assert "*"[0] == '*' && "*"[1..] == [];
      assert Split([]) == [""];
      assert ['*'] + "" == "*";
    }
    assert Trim("*") == "*" by {
      assert [] + "*" + [] == "*";
      assert "*"[0] == '*';
      assert |"*"| == 1;
      assert !IsSpace('*');
      assert IsTrimmed("*");
      TrimUnpads([], "*", []);
    }
    assert TrimAll(["*"]) == ["*"];
  }

  /**
   * `isAllowedOrigin`: a missing (empty) origin is allowed only under the wildcard;
   * any other origin under the wildcard or when it is listed verbatim.
   */
  function IsAllowedOrigin(origins: seq<string>, origin: string): (allowed: bool)
    ensures allowed <==> "*" in origins || (origin != "" && origin in origins)
  {
    if origin == "" then "*" in origins else "*" in origins || origin in origins
  }

  /** On a parsed list, which never holds `""`, the empty-origin branch changes nothing. */
  lemma ParsedListNeedsNoEmptyCase(setting: Option<string>, origin: string)
    ensures IsAllowedOrigin(ParseOrigins(setting), origin)
        <==> "*" in ParseOrigins(setting) || origin in ParseOrigins(setting)
  {
  }
}
