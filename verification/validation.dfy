/** The input checks the transit-data hook runs before any request:
    `/^\d{8,12}$/` for card numbers and `/^PA\d{3,4}$/i` for stop codes. */
module Validation {
  import opened Js

  /** `/^\d{8,12}$/.test(s)`: eight to twelve ASCII digits and nothing else. */
  predicate IsCardNumber(s: string)
    ensures IsCardNumber(s) <==> 8 <= |s| <= 12 && forall c :: c in s ==> IsDigit(c)
  {
    8 <= |s| <= 12 && AllDigits(s)
  }

  /** `/^PA\d{3,4}$/i.test(s)`: `P` and `A` in either case, then three or four digits. */
  predicate IsStopCode(s: string)
    ensures IsStopCode(s) <==> 5 <= |s| <= 6 && ToUpperAscii(s[..2]) == "PA" && AllDigits(s[2..])
  {
    5 <= |s| <= 6 && (s[0] == 'P' || s[0] == 'p') && (s[1] == 'A' || s[1] == 'a') && AllDigits(s[2..])
  }

  /** The `i` flag: a code is accepted exactly when its upper-cased form is. */
  lemma StopCodeIgnoresCase(s: string)
    ensures IsStopCode(ToUpperAscii(s)) <==> IsStopCode(s)
  {
    var u := ToUpperAscii(s);
    if 5 <= |s| <= 6 {
      assert forall i :: 2 <= i < |s| ==> (IsDigit(u[i]) <==> IsDigit(s[i]));
      assert AllDigits(u[2..]) <==> AllDigits(s[2..]) by {
        assert forall i :: 0 <= i < |s| - 2 ==> u[2..][i] == u[i + 2] && s[2..][i] == s[i + 2];
      }
    }
  }

  /** The upper-cased form of an accepted stop code is the canonical `PA` plus its digits. */
  lemma UpperStopCode(s: string)
    requires IsStopCode(s)
    ensures ToUpperAscii(s) == "PA" + s[2..]
    ensures IsStopCode(ToUpperAscii(s))
  {
    var u := ToUpperAscii(s);
    assert forall i :: 2 <= i < |s| ==> u[i] == s[i];
    assert u[0] == 'P' && u[1] == 'A';
    assert u == "PA" + s[2..];
  }

  /** Two accepted stop codes name the same stop, as far as the transit API
      is concerned, exactly when their digits agree. */
  lemma SameStopIffSameDigits(a: string, b: string)
    requires IsStopCode(a) && IsStopCode(b)
    ensures ToUpperAscii(a) == ToUpperAscii(b) <==> a[2..] == b[2..]
  {
    UpperStopCode(a);
    UpperStopCode(b);
    if ToUpperAscii(a) == ToUpperAscii(b) {
      assert a[2..] == ("PA" + a[2..])[2..];
    }
  }
}
