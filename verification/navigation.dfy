/** The helpers of the navigation bar (citizen/src/components/Navigation.tsx): the avatar
    fallback initials, the display name, and which link is highlighted. */
module Navigation {
  import opened Common
  import opened Text

  /** A name that is missing, empty, or white space only contributes no initial. */
  predicate Blank(name: Option<string>) {
    AllSpace(name.GetOr(""))
  }

  /** `(name || "").trim().charAt(0).toUpperCase()`: the upper-cased first character after
      trimming, or "" for a blank name. */
  function Initial(name: Option<string>): (r: string)
    ensures |r| <= 1
    ensures r == [] <==> Blank(name)
    ensures r != [] ==> r == [UpperChar(Trim(name.value)[0])] && !IsSpace(Trim(name.value)[0])
  {
    var t := Trim(name.GetOr(""));
    if t == [] then [] else [UpperChar(t[0])]
  }

  /** `getInitials`: the two initials side by side, or "NA" when there are none. */
  function GetInitials(firstName: Option<string>, lastName: Option<string>): (r: string)
    ensures 1 <= |r| <= 2
    ensures Blank(firstName) && Blank(lastName) ==> r == "NA"
    ensures !Blank(firstName) && Blank(lastName) ==> r == Initial(firstName) && |r| == 1
    ensures Blank(firstName) && !Blank(lastName) ==> r == Initial(lastName) && |r| == 1
    ensures !Blank(firstName) && !Blank(lastName) ==> r == Initial(firstName) + Initial(lastName) && |r| == 2
  {
    var both := Initial(firstName) + Initial(lastName);
    if both == "" then "NA" else both
  }

  /** "NA" comes out exactly when both names are blank, or when the initials really are N and
      A. */
  lemma {:induction false} InitialsNA(firstName: Option<string>, lastName: Option<string>)
    ensures GetInitials(firstName, lastName) == "NA" <==>
              (Blank(firstName) && Blank(lastName)) || (Initial(firstName) == "N" && Initial(lastName) == "A")
  {
    var f, l := Initial(firstName), Initial(lastName);
    var both := f + l;
    if both == "" {
      assert f == [] && l == [];
    } else {
      assert GetInitials(firstName, lastName) == both;
      assert !(Blank(firstName) && Blank(lastName));
      if both == "NA" {
        assert |f| == 1 && |l| == 1;
        assert f == both[..1] && l == both[1..];
      }
    }
  }

  /** A name that does not start with white space contributes its first letter, upper-cased. */
  lemma InitialOfName(name: string)
    requires name != [] && !IsSpace(name[0])
    ensures Initial(Some(name)) == [UpperChar(name[0])]
  {
    TrimKeepsFirst(name);
  }

  /** A user whose names start with "n" and "A", such as Nina Alvarez, also gets "NA": the
      fallback and real initials look alike. */
  lemma FallbackLooksLikeInitials(firstName: string, lastName: string)
    requires firstName != [] && firstName[0] == 'n'
    requires lastName != [] && lastName[0] == 'A'
    ensures GetInitials(Some(firstName), Some(lastName)) == GetInitials(None, None)
  {
    InitialOfName(firstName);
    InitialOfName(lastName);
    assert Initial(Some(firstName)) + Initial(Some(lastName)) == "NA";
  }

  /** `.filter(Boolean)` over optional strings: the truthy ones, in order. A single value is
      kept exactly when it is truthy; `KeepTruthyAppend` extends this to any list. */
  function KeepTruthy(values: seq<Option<string>>): (kept: seq<string>)
    ensures |kept| <= |values|
    ensures |values| == 1 ==> kept == if Truthy(values[0]) then [values[0].value] else []
    ensures forall k :: 0 <= k < |kept| ==> kept[k] != "" && Some(kept[k]) in values
    ensures forall k :: 0 <= k < |values| && Truthy(values[k]) ==> values[k].value in kept
  {
    if values == [] then []
    else if Truthy(values[0]) then [values[0].value] + KeepTruthy(values[1..])
    else KeepTruthy(values[1..])
  }

  /** Filtering a concatenation filters each part and keeps the parts in order. With the
      single-value case of `KeepTruthy`, this fixes the result for every list. */
  lemma {:induction false} KeepTruthyAppend(a: seq<Option<string>>, b: seq<Option<string>>)
    ensures KeepTruthy(a + b) == KeepTruthy(a) + KeepTruthy(b)
  {
    if a == [] {
      assert a + b == b;
    } else {
      assert (a + b)[0] == a[0] && (a + b)[1..] == a[1..] + b;
      KeepTruthyAppend(a[1..], b);
    }
  }

  /** `.join(separator)`: nothing for no parts, the part itself for one part. `JoinAppend`
      gives the separator between the parts of longer lists. */
  function Join(parts: seq<string>, separator: string): (r: string)
    ensures parts == [] ==> r == ""
    ensures |parts| == 1 ==> r == parts[0]
    ensures |parts| >= 2 ==> parts[0] + separator <= r
  {
    if parts == [] then ""
    else if |parts| == 1 then parts[0]
    else parts[0] + separator + Join(parts[1..], separator)
  }

  /** Joining two non-empty lists one after the other puts exactly one separator between
      their joins. */
  lemma {:induction false} JoinAppend(a: seq<string>, b: seq<string>, separator: string)
    requires a != [] && b != []
    ensures Join(a + b, separator) == Join(a, separator) + separator + Join(b, separator)
  {
    assert (a + b)[0] == a[0] && (a + b)[1..] == a[1..] + b;
    if |a| > 1 {
      JoinAppend(a[1..], b, separator);
    }
  }

  /** `fullName`: the non-empty names among first and last, joined by one space, or "User"
      when there is none. A missing user has neither name. Names are not trimmed here. */
  function FullName(firstName: Option<string>, lastName: Option<string>): (r: string)
    ensures Truthy(firstName) && Truthy(lastName) ==> r == firstName.value + " " + lastName.value
    ensures Truthy(firstName) && !Truthy(lastName) ==> r == firstName.value
    ensures !Truthy(firstName) && Truthy(lastName) ==> r == lastName.value
    ensures !Truthy(firstName) && !Truthy(lastName) ==> r == "User"
  {
    var names := [firstName, lastName];
    assert names[1..] == [lastName] && names[1..][1..] == [];
    assert KeepTruthy(names[1..][1..]) == [];
    assert KeepTruthy(names[1..]) == if Truthy(lastName) then [lastName.value] else [];
    var kept := KeepTruthy(names);
    assert kept == (if Truthy(firstName) then [firstName.value] else []) + (if Truthy(lastName) then [lastName.value] else []);
    assert |kept| == 2 ==> kept[1..] == [lastName.value];
    var joined := Join(kept, " ");
    if joined == "" then "User" else joined
  }

  /** `isActive(path)`: the current location is exactly `path`. */
  function IsActive(pathname: string, path: string): (active: bool)
    ensures active <==> |pathname| == |path| && path <= pathname
  {
    pathname == path
  }

  /** No prefix matching: a page below a link's path does not highlight the link. */
  lemma NoPrefixMatching(path: string, rest: string)
    requires rest != ""
    ensures !IsActive(path + rest, path)
  {
  }

  /** The four links of the bar, in display order. */
  const NavLinks := ["/", "/report", "/track", "/community"]

  /** Whatever the current location, at most one of the bar's links is highlighted. */
  lemma AtMostOneActive(pathname: string)
    ensures forall i, j :: 0 <= i < j < |NavLinks| ==> !(IsActive(pathname, NavLinks[i]) && IsActive(pathname, NavLinks[j]))
  {
    forall i, j | 0 <= i < j < |NavLinks|
      ensures !(IsActive(pathname, NavLinks[i]) && IsActive(pathname, NavLinks[j]))
    {
      // the four paths have four different lengths
      assert |NavLinks[i]| != |NavLinks[j]|;
    }
  }
}
