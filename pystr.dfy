/**
 * The three Python `str` operations the CSV intake and the result table rely
 * on: `strip()` with no argument, `split(sep)` with a one-character
 * separator, and `sep.join(parts)`.
 */
module PyStr {
  import opened Wrappers
  import opened FilterMaps

  /** The characters `str.isspace()` holds for, which `str.strip()` removes. */
  predicate IsSpace(c: char) {
    var n := c as int;
    (9 <= n <= 13) || (28 <= n <= 32) || n == 0x85 || n == 0xA0 || n == 0x1680
    || (0x2000 <= n <= 0x200A) || n == 0x2028 || n == 0x2029 || n == 0x202F
    || n == 0x205F || n == 0x3000
  }

  /** A string that `strip()` leaves alone: no whitespace at either end. */
  predicate IsStripped(s: string) {
    s == [] || (!IsSpace(s[0]) && !IsSpace(s[|s| - 1]))
  }

  /** `s.lstrip()`: the suffix left after removing every leading space. */
  function TrimStart(s: string): (r: string)
    ensures |r| <= |s| && r == s[|s| - |r|..]
    ensures r == [] || !IsSpace(r[0])
    decreases |s|
  {
    if |s| > 0 && IsSpace(s[0]) then TrimStart(s[1..]) else s
  }

  /** What `lstrip()` removes is whitespace only. */
  lemma {:induction false} TrimStartRemovesSpaces(s: string)
    ensures forall i :: 0 <= i < |s| - |TrimStart(s)| ==> IsSpace(s[i])
    decreases |s|
  {
    if |s| > 0 && IsSpace(s[0]) {
      TrimStartRemovesSpaces(s[1..]);
      assert forall i :: 1 <= i < |s| ==> s[i] == s[1..][i - 1];
    }
  }

  /** `s.rstrip()`: the prefix left after removing every trailing space. */
  function TrimEnd(s: string): (r: string)
    ensures |r| <= |s| && r == s[..|r|]
    ensures r == [] || !IsSpace(r[|r| - 1])
    decreases |s|
  {
    if |s| > 0 && IsSpace(s[|s| - 1]) then TrimEnd(s[..|s| - 1]) else s
  }

  /** What `rstrip()` removes is whitespace only. */
  lemma {:induction false} TrimEndRemovesSpaces(s: string)
    ensures forall i :: |TrimEnd(s)| <= i < |s| ==> IsSpace(s[i])
    decreases |s|
  {
    if |s| > 0 && IsSpace(s[|s| - 1]) {
      TrimEndRemovesSpaces(s[..|s| - 1]);
    }
  }

  /** `s.strip()`. */
  function Strip(s: string): (r: string)
    ensures IsStripped(r)
    ensures |r| <= |s|
  {
    TrimEnd(TrimStart(s))
  }

  /** `strip()` keeps a contiguous part of the string, so it adds no character. */
  lemma StripKeepsChars(s: string, c: char)
    requires c in Strip(s)
    ensures c in s
  {
    var t := TrimStart(s);
    assert c in t;
  }

  lemma StripOfStripped(s: string)
    requires IsStripped(s)
    ensures Strip(s) == s
  {
  }

  /** Stripping a single leading blank off a stripped, non-empty string gives the string back. */
  lemma StripAfterBlank(u: string)
    requires u != [] && IsStripped(u)
    ensures Strip(" " + u) == u
  {
    assert (" " + u)[1..] == u;
    assert TrimStart(" " + u) == TrimStart(u) == u;
  }

  /**
   * `s.split(sep)`: the maximal runs between separators, so there is always
   * at least one piece ("".split(",") is [""]), and no piece holds `sep`.
   */
  function Split(s: string, sep: char): (r: seq<string>)
    ensures |r| >= 1
    ensures forall k :: 0 <= k < |r| ==> sep !in r[k]
    decreases |s|
  {
    if s == [] then [[]]
    else
      var rest := Split(s[1..], sep);
      if s[0] == sep then [[]] + rest
      else [[s[0]] + rest[0]] + rest[1..]
  }

  /** `sep.join(parts)`. */
  function Join(parts: seq<string>, sep: string): string
  {
    if |parts| == 0 then []
    else if |parts| == 1 then parts[0]
    else parts[0] + sep + Join(parts[1..], sep)
  }

  /** A separator-free prefix glues onto the first piece of what follows it. */
  lemma {:induction false} SplitPrefix(a: string, t: string, sep: char)
    requires sep !in a
    ensures Split(a + t, sep) == [a + Split(t, sep)[0]] + Split(t, sep)[1..]
    decreases |a|
  {
    if a != [] {
      assert (a + t)[1..] == a[1..] + t;
      SplitPrefix(a[1..], t, sep);
      assert [a[0]] + (a[1..] + Split(t, sep)[0]) == a + Split(t, sep)[0];
    } else {
      assert a + t == t;
      assert a + Split(t, sep)[0] == Split(t, sep)[0];
      assert Split(t, sep) == [Split(t, sep)[0]] + Split(t, sep)[1..];
    }
  }

  /** Splitting undoes joining, when no part holds the separator. */
  lemma {:induction false} SplitJoin(parts: seq<string>, sep: char)
    requires |parts| >= 1
    requires forall k :: 0 <= k < |parts| ==> sep !in parts[k]
    ensures Split(Join(parts, [sep]), sep) == parts
    decreases |parts|
  {
    if |parts| == 1 {
      SplitPrefix(parts[0], [], sep);
      assert parts[0] + [] == parts[0];
    } else {
      var tail := Join(parts[1..], [sep]);
      SplitJoin(parts[1..], sep);
      assert Join(parts, [sep]) == parts[0] + ([sep] + tail);
      SplitPrefix(parts[0], [sep] + tail, sep);
      assert ([sep] + tail)[1..] == tail;
      assert Split([sep] + tail, sep) == [[]] + parts[1..];
      assert parts[0] + [] == parts[0];
    }
  }

  /** `[p.strip() for p in parts if p.strip()]`. */
  function StrippedNonEmpty(parts: seq<string>): (r: seq<string>)
    ensures |r| <= |parts|
    decreases |parts|
  {
    if parts == [] then []
    else
      var p := Strip(parts[0]);
      (if p != [] then [p] else []) + StrippedNonEmpty(parts[1..])
  }

  /** One URL as the split at csv_handler.py:21 can yield it. */
  predicate IsUrlPiece(u: string) {
    u != [] && ',' !in u && IsStripped(u)
  }

  /** The URL-list split of the third CSV column: split on ',', strip, drop empties. */
  function SplitUrls(field: string): seq<string>
  {
    StrippedNonEmpty(Split(field, ','))
  }

  lemma {:induction false} StrippedNonEmptyPieces(parts: seq<string>)
    requires forall k :: 0 <= k < |parts| ==> ',' !in parts[k]
    ensures forall k :: 0 <= k < |StrippedNonEmpty(parts)| ==> IsUrlPiece(StrippedNonEmpty(parts)[k])
    decreases |parts|
  {
    if parts != [] {
      StrippedNonEmptyPieces(parts[1..]);
      if ',' in Strip(parts[0]) {
        StripKeepsChars(parts[0], ',');
      }
    }
  }

  /** Every URL the split yields is non-empty, comma-free and stripped. */
  lemma SplitUrlsPieces(field: string)
    ensures forall k :: 0 <= k < |SplitUrls(field)| ==> IsUrlPiece(SplitUrls(field)[k])
  {
    StrippedNonEmptyPieces(Split(field, ','));
  }

  /** `[b + u for u in us]`. */
  function Prefixed(us: seq<string>, b: string): (r: seq<string>)
    ensures |r| == |us|
  {
    if us == [] then [] else [b + us[0]] + Prefixed(us[1..], b)
  }

  lemma {:induction false} PrefixedAt(us: seq<string>, b: string, k: nat)
    requires k < |us|
    ensures Prefixed(us, b)[k] == b + us[k]
    decreases k
  {
    if k > 0 {
      PrefixedAt(us[1..], b, k - 1);
    }
  }

  lemma {:induction false} JoinPrefixed(us: seq<string>, a: string, b: string)
    requires |us| >= 1
    ensures Join(Prefixed(us, b), a) == b + Join(us, a + b)
    decreases |us|
  {
    if |us| >= 2 {
      JoinPrefixed(us[1..], a, b);
      var rest := Join(us[1..], a + b);
      assert Prefixed(us, b)[1..] == Prefixed(us[1..], b);
      assert Join(Prefixed(us, b), a) == (b + us[0]) + a + (b + rest);
      assert Join(us, a + b) == us[0] + (a + b) + rest;
      assert (b + us[0]) + a + (b + rest) == b + (us[0] + (a + b) + rest);
    } else {
      assert Prefixed(us, b) == [b + us[0]];
    }
  }

  /** Joining with `a + b` is joining with `a` after putting `b` in front of all parts but the first. */
  lemma JoinSplitSeparator(us: seq<string>, a: string, b: string)
    requires |us| >= 1
    ensures Join(us, a + b) == Join([us[0]] + Prefixed(us[1..], b), a)
  {
    var parts := [us[0]] + Prefixed(us[1..], b);
    if |us| >= 2 {
      JoinPrefixed(us[1..], a, b);
      var rest := Join(us[1..], a + b);
      assert parts[1..] == Prefixed(us[1..], b);
      assert Join(parts, a) == us[0] + a + (b + rest);
      assert Join(us, a + b) == us[0] + (a + b) + rest;
      assert us[0] + (a + b) + rest == us[0] + a + (b + rest);
    } else {
      assert parts == [us[0]];
    }
  }

  /** What one piece of the split contributes: its stripped text, unless that is empty. */
  function KeepStripped(p: string): Option<string> {
    if Strip(p) != [] then Some(Strip(p)) else None
  }

  /** The strip-and-drop comprehension keeps, in order, what each piece contributes. */
  lemma {:induction false} StrippedNonEmptyIsFilterMap(parts: seq<string>)
    ensures StrippedNonEmpty(parts) == FilterMap(parts, KeepStripped)
    decreases |parts|
  {
    if parts != [] {
      StrippedNonEmptyIsFilterMap(parts[1..]);
    }
  }

  lemma StrippedNonEmptyBlanked(us: seq<string>)
    requires forall k :: 0 <= k < |us| ==> IsUrlPiece(us[k])
    ensures StrippedNonEmpty(Prefixed(us, " ")) == us
  {
    var ps := Prefixed(us, " ");
    forall k | 0 <= k < |ps| ensures KeepStripped(ps[k]) == Some(us[k]) {
      PrefixedAt(us, " ", k);
      StripAfterBlank(us[k]);
    }
    FilterMapAllSome(ps, KeepStripped);
    StrippedNonEmptyIsFilterMap(ps);
  }

  /** Splitting on `sep[0]` what was joined with `sep` gives the parts, each but the first behind `sep[1..]`. */
  lemma SplitJoinedWith(us: seq<string>, sep: string)
    requires us != [] && |sep| >= 1 && sep[0] !in sep[1..]
    requires forall k :: 0 <= k < |us| ==> sep[0] !in us[k]
    ensures Split(Join(us, sep), sep[0]) == [us[0]] + Prefixed(us[1..], sep[1..])
  {
    var c, b := sep[0], sep[1..];
    assert [c] + b == sep;
    var parts := [us[0]] + Prefixed(us[1..], b);
    JoinSplitSeparator(us, [c], b);
    forall k | 1 <= k < |parts| ensures c !in parts[k] {
      PrefixedAt(us[1..], b, k - 1);
      assert parts[k] == b + us[k];
    }
    SplitJoin(parts, c);
  }

  lemma StrippedNonEmptyJoinedParts(us: seq<string>)
    requires us != []
    requires forall k :: 0 <= k < |us| ==> IsUrlPiece(us[k])
    ensures StrippedNonEmpty([us[0]] + Prefixed(us[1..], " ")) == us
  {
    var parts := [us[0]] + Prefixed(us[1..], " ");
    StrippedNonEmptyBlanked(us[1..]);
    StripOfStripped(us[0]);
    assert parts[1..] == Prefixed(us[1..], " ");
    assert [us[0]] + us[1..] == us;
  }

  /** The separator the result table joins URL lists with (api.py:108-109). */
  const UrlListSeparator: string := ", "

  lemma SplitUrlsOfJoinNonEmpty(us: seq<string>)
    requires us != []
    requires forall k :: 0 <= k < |us| ==> IsUrlPiece(us[k])
    ensures SplitUrls(Join(us, UrlListSeparator)) == us
  {
    SplitJoinedWith(us, UrlListSeparator);
    StrippedNonEmptyJoinedParts(us);
  }

  /**
   * Round trip between the URL-list split of csv_handler.py:21 and the
   * `", ".join` of api.py:108-109: splitting a joined list of URL pieces
   * gives the list back, the empty list included.
   */
  lemma SplitUrlsOfJoin(us: seq<string>)
    requires forall k :: 0 <= k < |us| ==> IsUrlPiece(us[k])
    ensures SplitUrls(Join(us, UrlListSeparator)) == us
  {
    if us == [] {
      assert Join(us, UrlListSeparator) == [];
      assert Split([], ',') == [[]];
    } else {
      SplitUrlsOfJoinNonEmpty(us);
    }
  }

  /** Splitting is idempotent through a join: what split produced, split reproduces. */
  lemma SplitUrlsStable(field: string)
    ensures SplitUrls(Join(SplitUrls(field), UrlListSeparator)) == SplitUrls(field)
  {
    SplitUrlsPieces(field);
    SplitUrlsOfJoin(SplitUrls(field));
  }
}
