/**
 * A model of url.JoinPath as the client uses it: the base URL is parsed (and may be refused),
 * then the element is appended under it with exactly one slash in between, and a trailing slash
 * on the element is kept.
 */
module Urls {
  import opened Results

  /** An ASCII control character, which url.Parse refuses anywhere before a '#'. */
  predicate IsControl(c: char) { c as int < 0x20 || c as int == 0x7f }

  /** Whether `s` holds a control character anywhere. */
  predicate HasControlChar(s: string)
  {
    s != [] && (IsControl(s[0]) || HasControlChar(s[1..]))
  }

  /** Why url.Parse refused a URL ("net/url: invalid control character in URL"). */
  datatype UrlError = InvalidControlCharacter(url: string)

  /** `s` without the slashes at its end. */
  function TrimTrailingSlashes(s: string): (r: string)
    ensures |r| <= |s|
    ensures r == [] || r[|r| - 1] != '/'
  {
    if s != [] && s[|s| - 1] == '/' then TrimTrailingSlashes(s[..|s| - 1]) else s
  }

  /** `s` without the slashes at its front. */
  function TrimLeadingSlashes(s: string): (r: string)
    ensures |r| <= |s|
    ensures r == [] || r[0] != '/'
  {
    if s != [] && s[0] == '/' then TrimLeadingSlashes(s[1..]) else s
  }

  /** `elem` appended under `base`, with exactly one slash between them. */
  function Join(base: string, elem: string): string
  {
    TrimTrailingSlashes(base) + "/" + TrimLeadingSlashes(elem)
  }

  /** url.JoinPath(base, elem): fails only when the base URL does not parse. */
  function JoinPath(base: string, elem: string): Result<string, UrlError>
  {
    if HasControlChar(base) then Failure(InvalidControlCharacter(base)) else Success(Join(base, elem))
  }

  /** A string has a control character exactly when one of its two parts has. */
  lemma {:induction false} ControlCharInAppend(a: string, b: string)
    ensures HasControlChar(a + b) <==> HasControlChar(a) || HasControlChar(b)
  {
    if a != [] {
      assert (a + b)[0] == a[0] && (a + b)[1..] == a[1..] + b;
      ControlCharInAppend(a[1..], b);
    } else {
      assert a + b == b;
    }
  }

  lemma {:induction false} TrimTrailingSlashesKeepsNoControlChar(s: string)
    requires !HasControlChar(s)
    ensures !HasControlChar(TrimTrailingSlashes(s))
  {
    if s != [] && s[|s| - 1] == '/' {
      assert s == s[..|s| - 1] + [s[|s| - 1]];
      ControlCharInAppend(s[..|s| - 1], [s[|s| - 1]]);
      TrimTrailingSlashesKeepsNoControlChar(s[..|s| - 1]);
    }
  }

  lemma {:induction false} TrimLeadingSlashesKeepsNoControlChar(s: string)
    requires !HasControlChar(s)
    ensures !HasControlChar(TrimLeadingSlashes(s))
  {
    if s != [] && s[0] == '/' {
      TrimLeadingSlashesKeepsNoControlChar(s[1..]);
    }
  }

  /** Joining strings free of control characters gives a string free of them, so it parses again. */
  lemma JoinHasNoControlChar(base: string, elem: string)
    requires !HasControlChar(base) && !HasControlChar(elem)
    ensures !HasControlChar(Join(base, elem))
  {
    var b, e := TrimTrailingSlashes(base), TrimLeadingSlashes(elem);
    TrimTrailingSlashesKeepsNoControlChar(base);
    TrimLeadingSlashesKeepsNoControlChar(elem);
    ControlCharInAppend(b, "/");
    ControlCharInAppend(b + "/", e);
  }

  lemma {:induction false} TrimLeadingSlashesKeepsLast(s: string)
    requires s != [] && s[|s| - 1] == '/'
    ensures var r := TrimLeadingSlashes(s); r == [] || r[|r| - 1] == '/'
  {
    if s[0] == '/' && |s| > 1 {
      TrimLeadingSlashesKeepsLast(s[1..]);
    }
  }

  /** A trailing slash on the element survives the join, as the device's endpoint paths need. */
  lemma JoinKeepsTrailingSlash(base: string, elem: string)
    requires elem != [] && elem[|elem| - 1] == '/'
    ensures var j := Join(base, elem); j[|j| - 1] == '/'
  {
    TrimLeadingSlashesKeepsLast(elem);
  }
}
