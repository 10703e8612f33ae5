/** The pieces of Go's `strings`, `strconv`, `path` and `net` packages that the
    options, the server address and the log caller label are built from. */
module Text {

  import opened Base

  // ---------------------------------------------------------------------------
  // strings.ToLower, for the ASCII letters

  function LowerChar(c: char): char
  {
    if 'A' <= c <= 'Z' then (c as int + 32) as char else c
  }

  function ToLower(s: string): (r: string)
    ensures |r| == |s|
    ensures forall i | 0 <= i < |s| :: r[i] == LowerChar(s[i])
  {
    if s == [] then [] else [LowerChar(s[0])] + ToLower(s[1..])
  }

  /** Lower-casing twice is lower-casing once. */
  lemma ToLowerIdempotent(s: string)
    ensures ToLower(ToLower(s)) == ToLower(s)
  {
    var once := ToLower(s);
    assert forall i | 0 <= i < |s| :: ToLower(once)[i] == once[i];
  }

  // ---------------------------------------------------------------------------
  // strings.Contains

  predicate HasPrefix(s: string, prefix: string)
  {
    |prefix| <= |s| && s[..|prefix|] == prefix
  }

  /** `strings.Contains(s, sub)`, by scanning for a position where `sub` starts. */
  function Contains(s: string, sub: string): bool
    decreases |s|
  {
    HasPrefix(s, sub) || (|s| > 0 && Contains(s[1..], sub))
  }

  /** `sub` occurs in `s` starting at offset `i`. */
  predicate OccursAt(s: string, sub: string, i: int)
  {
    0 <= i <= |s| - |sub| && s[i..i + |sub|] == sub
  }

  /** The scan finds `sub` exactly when `sub` occurs at some offset of `s`. */
  lemma {:induction false} ContainsIff(s: string, sub: string)
    ensures Contains(s, sub) <==> exists i :: OccursAt(s, sub, i)
    decreases |s|
  {
    if HasPrefix(s, sub) {
      assert OccursAt(s, sub, 0);
    } else {
      forall i | 0 <= i <= |s| - |sub| && 0 < |s|
        ensures OccursAt(s, sub, i) <==> (i > 0 && OccursAt(s[1..], sub, i - 1))
      {
        if i > 0 {
          var a, b := s[i..i + |sub|], s[1..][i - 1..i - 1 + |sub|];
          assert |a| == |b|;
          forall j | 0 <= j < |a| ensures a[j] == b[j] {}
          assert a == b;
        } else {
          assert s[..|sub|] == s[0..0 + |sub|];
        }
      }
      if |s| == 0 {
        forall i ensures !OccursAt(s, sub, i) {
          assert OccursAt(s, sub, i) ==> i == 0 && sub == [];
        }
      } else {
        ContainsIff(s[1..], sub);
        if Contains(s[1..], sub) {
          var i :| OccursAt(s[1..], sub, i);
          assert OccursAt(s, sub, i + 1);
        } else {
          forall i ensures !OccursAt(s, sub, i) {
            assert OccursAt(s, sub, i) ==> OccursAt(s[1..], sub, i - 1);
          }
        }
      }
    }
  }

  // ---------------------------------------------------------------------------
  // strings.Split and strings.Join with a one-character separator

  /** `strings.Split(s, string(sep))`: the pieces between separators; an empty
      string gives one empty piece. */
  function Split(s: string, sep: char): (r: seq<string>)
    ensures |r| >= 1
    decreases |s|
  {
    if s == [] then [""]
    else
      var rest := Split(s[1..], sep);
      if s[0] == sep then [""] + rest
      else [[s[0]] + rest[0]] + rest[1..]
  }

  /** `strings.Join(parts, string(sep))`. */
  function Join(parts: seq<string>, sep: char): string
  {
    if |parts| == 0 then ""
    else if |parts| == 1 then parts[0]
    else parts[0] + [sep] + Join(parts[1..], sep)
  }

  /** Splitting and joining back gives the original string. */
  lemma {:induction false} JoinSplit(s: string, sep: char)
    ensures Join(Split(s, sep), sep) == s
    decreases |s|
  {
    if s != [] {
      var rest := Split(s[1..], sep);
      JoinSplit(s[1..], sep);
      if s[0] == sep {
        assert Split(s, sep) == [""] + rest;
        assert Join([""] + rest, sep) == "" + [sep] + Join(rest, sep);
        assert s == [s[0]] + s[1..];
      } else if |rest| == 1 {
        assert Split(s, sep) == [[s[0]] + rest[0]];
        assert s == [s[0]] + s[1..];
      } else {
        assert Join(rest, sep) == rest[0] + [sep] + Join(rest[1..], sep);
        var parts := [[s[0]] + rest[0]] + rest[1..];
        assert parts[1..] == rest[1..];
        assert Join(parts, sep) == [s[0]] + rest[0] + [sep] + Join(rest[1..], sep);
        assert s == [s[0]] + s[1..];
      }
    }
  }

  /** No piece of a split contains the separator. */
  lemma {:induction false} SplitPiecesHaveNoSep(s: string, sep: char)
    ensures forall i | 0 <= i < |Split(s, sep)| :: sep !in Split(s, sep)[i]
    decreases |s|
  {
    if s != [] {
      SplitPiecesHaveNoSep(s[1..], sep);
      var rest := Split(s[1..], sep);
      if s[0] != sep {
        var r := Split(s, sep);
        forall i | 0 <= i < |r| ensures sep !in r[i] {
          if i == 0 {
            assert r[0] == [s[0]] + rest[0];
            assert sep !in rest[0];
          } else {
            assert r[i] == rest[i];
          }
        }
      }
    }
  }

  /** A separator-free prefix glues onto the first piece of what follows it. */
  lemma {:induction false} SplitSepFreePrefix(p: string, t: string, sep: char)
    requires sep !in p
    ensures Split(p + t, sep) == [p + Split(t, sep)[0]] + Split(t, sep)[1..]
    decreases |p|
  {
    var tt := Split(t, sep);
    if p == [] {
      assert p + t == t;
      assert p + tt[0] == tt[0];
      assert tt == [tt[0]] + tt[1..];
    } else {
      SplitSepFreePrefix(p[1..], t, sep);
      assert p[0] in p;
      var pt := p + t;
      assert pt[0] == p[0] && pt[1..] == p[1..] + t;
      var rest := Split(pt[1..], sep);
      assert rest == [p[1..] + tt[0]] + tt[1..];
      assert Split(pt, sep) == [[p[0]] + rest[0]] + rest[1..];
      assert [p[0]] + (p[1..] + tt[0]) == p + tt[0];
    }
  }

  /** Joining separator-free pieces and splitting again gives the pieces back. */
  lemma {:induction false} SplitJoin(parts: seq<string>, sep: char)
    requires |parts| >= 1
    requires forall i | 0 <= i < |parts| :: sep !in parts[i]
    ensures Split(Join(parts, sep), sep) == parts
    decreases |parts|
  {
    if |parts| == 1 {
      SplitSepFreePrefix(parts[0], "", sep);
      assert parts[0] + "" == parts[0];
    } else {
      SplitJoin(parts[1..], sep);
      var tail := [sep] + Join(parts[1..], sep);
      assert Join(parts, sep) == parts[0] + tail;
      SplitSepFreePrefix(parts[0], tail, sep);
      assert tail[1..] == Join(parts[1..], sep);
      assert tail != [] && tail[0] == sep;
      assert Split(tail, sep) == [""] + Split(tail[1..], sep);
      assert Split(tail, sep) == [""] + parts[1..];
      assert parts[0] + "" == parts[0];
      assert parts == [parts[0]] + parts[1..];
    }
  }

  /** The pieces of two separator-free strings joined by one separator. */
  lemma SplitPair(a: string, b: string, sep: char)
    requires sep !in a && sep !in b
    ensures Split(a + [sep] + b, sep) == [a, b]
  {
    assert Join([a, b], sep) == a + [sep] + Join([b], sep);
    SplitJoin([a, b], sep);
  }

  // ---------------------------------------------------------------------------
  // strconv.Itoa and a decimal reader that inverts it

  predicate IsDigit(c: char)
  {
    '0' <= c <= '9'
  }

  predicate AllDigits(s: string)
  {
    forall i | 0 <= i < |s| :: IsDigit(s[i])
  }

  function DigitChar(d: nat): char
    requires d < 10
  {
    ('0' as int + d) as char
  }

  /** The decimal digits of `n`, most significant first, without leading zeros. */
  function NatToDecimal(n: nat): string
    decreases n
  {
    if n < 10 then [DigitChar(n)] else NatToDecimal(n / 10) + [DigitChar(n % 10)]
  }

  /** `strconv.Itoa(n)`. */
  function Itoa(n: int): string
  {
    if n < 0 then "-" + NatToDecimal(-n) else NatToDecimal(n)
  }

  /** The value of a string of decimal digits. */
  function DecimalValue(s: string): nat
    requires AllDigits(s)
    decreases |s|
  {
    if s == [] then 0
    else DecimalValue(s[..|s| - 1]) * 10 + (s[|s| - 1] as int - '0' as int)
  }

  /** A reader for what `Itoa` writes: an optional '-' and one or more digits. */
  function ParseInt(s: string): Option<int>
  {
    if |s| > 0 && s[0] == '-' then
      (if |s| > 1 && AllDigits(s[1..]) then Some(-(DecimalValue(s[1..]) as int)) else None)
    else if |s| > 0 && AllDigits(s) then Some(DecimalValue(s) as int)
    else None
  }

  /** `NatToDecimal` writes a non-empty digit string whose value is `n`, and
      whose first digit is '0' only for zero itself. */
  lemma {:induction false} NatToDecimalValue(n: nat)
    ensures |NatToDecimal(n)| >= 1 && AllDigits(NatToDecimal(n))
    ensures DecimalValue(NatToDecimal(n)) == n
    ensures NatToDecimal(n)[0] == '0' <==> n == 0
    decreases n
  {
    if n >= 10 {
      NatToDecimalValue(n / 10);
      var s := NatToDecimal(n / 10);
      var t := s + [DigitChar(n % 10)];
      assert t[..|t| - 1] == s;
      assert DecimalValue(t) == DecimalValue(s) * 10 + n % 10;
    }
  }

  /** Reading back what `Itoa` wrote gives the number. */
  lemma ItoaRoundTrip(n: int)
    ensures ParseInt(Itoa(n)) == Some(n)
  {
    if n < 0 {
      NatToDecimalValue(-n);
      assert Itoa(n)[1..] == NatToDecimal(-n);
    } else {
      NatToDecimalValue(n);
    }
  }

  /** `Itoa` never writes a ':', so a decimal port never splits an address. */
  lemma ItoaHasNoColon(n: int)
    ensures ':' !in Itoa(n)
  {
    if n < 0 {
      NatToDecimalValue(-n);
      assert Itoa(n) == ['-'] + NatToDecimal(-n);
    } else {
      NatToDecimalValue(n);
    }
  }

  // ---------------------------------------------------------------------------
  // path.Base

  function TrimTrailingSlashes(p: string): (r: string)
    ensures |r| <= |p| && r == p[..|r|]
    ensures r == [] || r[|r| - 1] != '/'
    ensures forall i | |r| <= i < |p| :: p[i] == '/'
    decreases |p|
  {
    if |p| > 0 && p[|p| - 1] == '/' then TrimTrailingSlashes(p[..|p| - 1]) else p
  }

  /** What follows the last '/' of `p` (all of `p` when it has none). */
  function AfterLastSlash(p: string): (r: string)
    ensures '/' !in r
    decreases |p|
  {
    if p == [] then []
    else if p[|p| - 1] == '/' then []
    else AfterLastSlash(p[..|p| - 1]) + [p[|p| - 1]]
  }

  /** `path.Base(p)`: "." for the empty path, "/" for a path of slashes only,
      otherwise the last element after trailing slashes are removed. */
  function PathBase(p: string): string
  {
    if p == [] then "."
    else
      var last := AfterLastSlash(TrimTrailingSlashes(p));
      if last == [] then "/" else last
  }

  /** The last element is what follows the final '/', and a path without '/'
      is its own base. */
  lemma {:induction false} AfterLastSlashOfJoin(dir: string, name: string)
    requires '/' !in name
    ensures AfterLastSlash(dir + "/" + name) == name
    ensures AfterLastSlash(name) == name
    decreases |name|
  {
    if name == [] {
      assert (dir + "/" + name) == dir + "/";
    } else {
      var n' := name[..|name| - 1];
      assert '/' !in n' by {
        forall i | 0 <= i < |n'| ensures n'[i] != '/' { assert n'[i] == name[i]; }
      }
      AfterLastSlashOfJoin(dir, n');
      var p := dir + "/" + name;
      assert p[..|p| - 1] == dir + "/" + n';
      assert name[..|name| - 1] == n';
      assert name == n' + [name[|name| - 1]];
    }
  }

  /** `path.Base` of a file name under a directory is the file name, and the
      base is never empty and holds a '/' only when it is "/" itself. */
  lemma PathBaseOfJoin(dir: string, name: string)
    requires name != [] && '/' !in name
    ensures PathBase(dir + "/" + name) == name
    ensures PathBase(name) == name
  {
    AfterLastSlashOfJoin(dir, name);
  }

  lemma PathBaseShape(p: string)
    ensures PathBase(p) != []
    ensures '/' in PathBase(p) ==> PathBase(p) == "/"
  {
  }

  // ---------------------------------------------------------------------------
  // net.JoinHostPort

  /** `net.JoinHostPort(host, port)`: a host holding ':' (an IPv6 literal) is
      put in brackets. */
  function JoinHostPort(host: string, port: string): string
  {
    if ':' in host then "[" + host + "]:" + port else host + ":" + port
  }

  /** For a host without ':' the address splits at ':' into exactly the host and
      the port. */
  lemma JoinHostPortSplits(host: string, port: string)
    requires ':' !in host && ':' !in port
    ensures Split(JoinHostPort(host, port), ':') == [host, port]
  {
    assert JoinHostPort(host, port) == host + [':'] + port;
    SplitPair(host, port, ':');
  }
}
