/** The pieces of Python's str and int behaviour that the provisioning script
    relies on: int() of a decimal string, f-string formatting of an int,
    substring tests, str.replace, str.lower, ' '.join and str.split. */
module Text {

  datatype Option<+T> = None | Some(value: T)

  predicate IsDigit(c: char) { '0' <= c <= '9' }

  function DigitValue(c: char): (d: nat)
    requires IsDigit(c)
    ensures d < 10
  {
    (c as int) - ('0' as int)
  }

  function DigitChar(d: nat): (c: char)
    requires d < 10
    ensures IsDigit(c) && DigitValue(c) == d
  {
    (('0' as int) + d) as char
  }

  predicate AllDigits(s: string) {
    forall i :: 0 <= i < |s| ==> IsDigit(s[i])
  }

  /** The value of a run of decimal digits, read left to right. */
  function DigitsValue(s: string): nat
    requires AllDigits(s)
    decreases |s|
  {
    if |s| == 0 then 0 else 10 * DigitsValue(s[..|s| - 1]) + DigitValue(s[|s| - 1])
  }

  /** Python's int(s) on a string: an optional sign followed by at least one
      ASCII digit. None stands for the ValueError int() raises otherwise. */
  function ParseInt(s: string): Option<int> {
    if |s| > 0 && (s[0] == '+' || s[0] == '-') then
      if |s| > 1 && AllDigits(s[1..]) then
        Some(if s[0] == '-' then -(DigitsValue(s[1..]) as int) else DigitsValue(s[1..]))
      else None
    else if |s| > 0 && AllDigits(s) then Some(DigitsValue(s))
    else None
  }

  /** f'{n}' for a natural number: its shortest decimal digits. */
  function NatToString(n: nat): (r: string)
    ensures |r| > 0 && AllDigits(r)
    decreases n
  {
    if n < 10 then [DigitChar(n)] else NatToString(n / 10) + [DigitChar(n % 10)]
  }

  /** f'{n}' for an int. */
  function IntToString(n: int): string {
    if n < 0 then "-" + NatToString(-n) else NatToString(n)
  }

  lemma {:induction false} NatToStringValue(n: nat)
    ensures DigitsValue(NatToString(n)) == n
    decreases n
  {
    if n >= 10 {
      NatToStringValue(n / 10);
      var s := NatToString(n);
      assert s[..|s| - 1] == NatToString(n / 10);
    }
  }

  /** int(f'{n}') == n: formatting an int and parsing it back is the identity. */
  lemma ParseIntOfIntToString(n: int)
    ensures ParseInt(IntToString(n)) == Some(n)
  {
    if n < 0 {
      NatToStringValue(-n);
      var t := NatToString(-n);
      var s := IntToString(n);
      assert s == "-" + t;
      assert s[0] == '-' && s[1..] == t;
    } else {
      NatToStringValue(n);
      var s := NatToString(n);
      assert IsDigit(s[0]);
    }
  }

  /** f'{n}' is injective: distinct numbers format to distinct strings. */
  lemma IntToStringInjective(m: int, n: int)
    requires m != n
    ensures IntToString(m) != IntToString(n)
  {
    ParseIntOfIntToString(m);
    ParseIntOfIntToString(n);
  }

  /** Appending a digit to a string of digits multiplies its value by ten and
      adds the digit: int(num + str(x)) for a plain decimal num. */
  lemma AppendDigit(num: string, d: char)
    requires |num| > 0 && AllDigits(num) && IsDigit(d)
    ensures ParseInt(num + [d]) == Some(10 * DigitsValue(num) + DigitValue(d))
  {
    var s := num + [d];
    assert s[..|s| - 1] == num;
  }

  /** Whether int(num + str(x)) succeeds does not depend on the digit x. */
  lemma ParseWithDigitUniform(num: string, d: char, e: char)
    requires IsDigit(d) && IsDigit(e)
    ensures ParseInt(num + [d]).Some? == ParseInt(num + [e]).Some?
  {
    if |num| > 0 {
      var s, t := num + [d], num + [e];
      assert s[0] == t[0] == num[0];
      assert s[1..] == num[1..] + [d] && t[1..] == num[1..] + [e];
      assert AllDigits(s[1..]) <==> AllDigits(num[1..]) by {
        if AllDigits(num[1..]) {
          forall i | 0 <= i < |s[1..]| ensures IsDigit(s[1..][i]) {
            if i < |num[1..]| { assert s[1..][i] == num[1..][i]; }
          }
        }
        if AllDigits(s[1..]) {
          forall i | 0 <= i < |num[1..]| ensures IsDigit(num[1..][i]) {
            assert num[1..][i] == s[1..][i];
          }
        }
      }
      assert AllDigits(t[1..]) <==> AllDigits(num[1..]) by {
        if AllDigits(num[1..]) {
          forall i | 0 <= i < |t[1..]| ensures IsDigit(t[1..][i]) {
            if i < |num[1..]| { assert t[1..][i] == num[1..][i]; }
          }
        }
        if AllDigits(t[1..]) {
          forall i | 0 <= i < |num[1..]| ensures IsDigit(num[1..][i]) {
            assert num[1..][i] == t[1..][i];
          }
        }
      }
      assert AllDigits(s) <==> AllDigits(t) by {
        assert AllDigits(s) <==> IsDigit(num[0]) && AllDigits(s[1..]) by {
          if IsDigit(num[0]) && AllDigits(s[1..]) {
            forall i | 0 <= i < |s| ensures IsDigit(s[i]) {
              if i > 0 { assert s[i] == s[1..][i - 1]; }
            }
          }
        }
        assert AllDigits(t) <==> IsDigit(num[0]) && AllDigits(t[1..]) by {
          if IsDigit(num[0]) && AllDigits(t[1..]) {
            forall i | 0 <= i < |t| ensures IsDigit(t[i]) {
              if i > 0 { assert t[i] == t[1..][i - 1]; }
            }
          }
        }
      }
    } else {
      assert num + [d] == [d] && num + [e] == [e];
    }
  }

  /** t occurs in s starting at position i. */
  predicate OccursAt(s: string, t: string, i: nat) {
    i + |t| <= |s| && s[i..i + |t|] == t
  }

  /** Python's `t in s` on strings. */
  predicate Contains(s: string, t: string)
    decreases |s|
  {
    |t| <= |s| && (s[..|t|] == t || (|s| > 0 && Contains(s[1..], t)))
  }

  lemma {:induction false} ContainsWitness(s: string, t: string) returns (i: nat)
    requires Contains(s, t)
    ensures OccursAt(s, t, i)
    decreases |s|
  {
    if s[..|t|] == t {
      i := 0;
    } else {
      var j := ContainsWitness(s[1..], t);
      assert s[j + 1..j + 1 + |t|] == s[1..][j..j + |t|];
      i := j + 1;
    }
  }

  lemma {:induction false} OccursContains(s: string, t: string, i: nat)
    requires OccursAt(s, t, i)
    ensures Contains(s, t)
    decreases i
  {
    if i > 0 {
      assert s[1..][i - 1..i - 1 + |t|] == s[i..i + |t|];
      OccursContains(s[1..], t, i - 1);
    }
  }

  /** The scan Contains performs finds t exactly when t occurs somewhere in s. */
  lemma ContainsIff(s: string, t: string)
    ensures Contains(s, t) <==> exists i: nat :: OccursAt(s, t, i)
  {
    if Contains(s, t) {
      var i := ContainsWitness(s, t);
    } else {
      forall i: nat | OccursAt(s, t, i) ensures false {
        OccursContains(s, t, i);
      }
    }
  }

  /** Python's s.replace(c, sub) for a one-character pattern c. */
  function ReplaceChar(s: string, c: char, sub: string): string
    decreases |s|
  {
    if |s| == 0 then "" else (if s[0] == c then sub else [s[0]]) + ReplaceChar(s[1..], c, sub)
  }

  /** After replacing every c by a string free of c, no c is left; a string
      without c is left as it was. */
  lemma {:induction false} ReplaceCharRemoves(s: string, c: char, sub: string)
    requires c !in sub
    ensures c !in ReplaceChar(s, c, sub)
    ensures c !in s ==> ReplaceChar(s, c, sub) == s
    decreases |s|
  {
    if |s| > 0 {
      ReplaceCharRemoves(s[1..], c, sub);
      assert s == [s[0]] + s[1..];
    }
  }

  function LowerChar(c: char): char {
    if 'A' <= c <= 'Z' then (c as int - 'A' as int + 'a' as int) as char else c
  }

  /** Python's str.lower() on ASCII letters. */
  function ToLower(s: string): (r: string)
    ensures |r| == |s|
  {
    seq(|s|, i requires 0 <= i < |s| => LowerChar(s[i]))
  }

  /** ' '.join(words) */
  function JoinWords(words: seq<string>): string
    decreases |words|
  {
    if |words| == 0 then ""
    else if |words| == 1 then words[0]
    else words[0] + " " + JoinWords(words[1..])
  }

  /** The length of the leading run of non-space characters of s. */
  function WordLength(s: string): (k: nat)
    ensures k <= |s|
    ensures |s| > 0 && s[0] != ' ' ==> k > 0
    ensures forall i :: 0 <= i < k ==> s[i] != ' '
    ensures k < |s| ==> s[k] == ' '
    decreases |s|
  {
    if |s| == 0 || s[0] == ' ' then 0 else 1 + WordLength(s[1..])
  }

  /** Python's str.split() with the space as the only separator: the maximal
      runs of non-space characters of s, in order. */
  function SplitWords(s: string): seq<string>
    decreases |s|
  {
    if |s| == 0 then []
    else if s[0] == ' ' then SplitWords(s[1..])
    else [s[..WordLength(s)]] + SplitWords(s[WordLength(s)..])
  }

  /** A non-empty string without spaces, as str.split() produces. */
  predicate IsWord(w: string) {
    |w| > 0 && ' ' !in w
  }

  /** Every piece str.split() returns is a word. */
  lemma {:induction false} SplitWordsAreWords(s: string)
    ensures forall i :: 0 <= i < |SplitWords(s)| ==> IsWord(SplitWords(s)[i])
    decreases |s|
  {
    if |s| > 0 {
      if s[0] == ' ' {
        SplitWordsAreWords(s[1..]);
      } else {
        var k := WordLength(s);
        SplitWordsAreWords(s[k..]);
        var w := s[..k];
        assert ' ' !in w by {
          forall i | 0 <= i < |w| ensures w[i] != ' ' {
            assert w[i] == s[i];
          }
        }
      }
    }
  }

  lemma {:induction false} WordLengthOfWord(w: string, rest: string)
    requires ' ' !in w
    requires rest == [] || rest[0] == ' '
    ensures WordLength(w + rest) == |w|
    decreases |w|
  {
    if |w| > 0 {
      assert (w + rest)[0] == w[0];
      assert (w + rest)[1..] == w[1..] + rest;
      WordLengthOfWord(w[1..], rest);
    } else {
      assert w + rest == rest;
    }
  }

  /** Splitting a space-joined list of words gives the words back. */
  lemma {:induction false} SplitJoinWords(words: seq<string>)
    requires forall i :: 0 <= i < |words| ==> IsWord(words[i])
    ensures SplitWords(JoinWords(words)) == words
    decreases |words|
  {
    if |words| == 1 {
      var w := words[0];
      WordLengthOfWord(w, []);
      assert w + [] == w;
      assert w[|w|..] == [];
      assert w[..|w|] == w;
    } else if |words| > 1 {
      var w := words[0];
      var rest := JoinWords(words[1..]);
      var s := w + " " + rest;
      assert s == w + (" " + rest);
      WordLengthOfWord(w, " " + rest);
      assert s[..|w|] == w;
      assert s[|w|..] == " " + rest;
      assert (" " + rest)[1..] == rest;
      SplitJoinWords(words[1..]);
      assert JoinWords(words) == s;
    }
  }
}
