/** The error kinds of the package and their names (error.go:8-28 and the
    stringer output errorkind_generated.go). */
module ErrorKinds {
  import opened Wrappers
  import opened Text

  /** `type ErrorKind int`: any integer is an ErrorKind, the declared
      constants are 0..7 in order. */
  type ErrorKind = int

  const Eunknown: ErrorKind := 0
  const EnotJSONRequest: ErrorKind := 1
  const EreadRequestBody: ErrorKind := 2
  const EunmarshalRequestBody: ErrorKind := 3
  const EmarshalResponse: ErrorKind := 4
  const EwriteResponseBody: ErrorKind := 5
  const EhandlerError: ErrorKind := 6
  const EtooLargeRequestBody: ErrorKind := 7

  type Uint8 = x: int | 0 <= x < 256

  /** `_ErrorKind_name`: the seven names generated for kinds 0..6, run
      together into one string of 107 characters (written here as the
      concatenation of the seven names; the value is the same). */
  const KindNames: string :=
    "Eunknown" + "EnotJSONRequest" + "EreadRequestBody" + "EunmarshalRequestBody" +
    "EmarshalResponse" + "EwriteResponseBody" + "EhandlerError"

  /** `_ErrorKind_index`: where each name starts in KindNames. It was
      generated before EtooLargeRequestBody was declared, so it covers 0..6. */
  const KindIndex: seq<Uint8> := [0, 8, 23, 39, 60, 76, 94, 107]

  /** The identifier each constant is declared with in error.go. */
  function Identifier(k: ErrorKind): string
    requires Eunknown <= k <= EtooLargeRequestBody
  {
    ["Eunknown", "EnotJSONRequest", "EreadRequestBody", "EunmarshalRequestBody",
     "EmarshalResponse", "EwriteResponseBody", "EhandlerError", "EtooLargeRequestBody"][k]
  }

  /** The index table starts at 0, rises strictly and ends at the length of
      the name string, so every slice String takes is in bounds and non-empty. */
  lemma KindIndexWellFormed()
    ensures |KindIndex| == 8 && KindIndex[0] == 0 && KindIndex[7] == |KindNames| == 107
    ensures forall j, k :: 0 <= j < k < |KindIndex| ==> KindIndex[j] < KindIndex[k]
  {
  }

  /** Slice k of the name table spells the identifier of constant k. */
  lemma TableSliceSpells(k: ErrorKind)
    requires 0 <= k < |KindIndex| - 1
    ensures KindNames[KindIndex[k]..KindIndex[k + 1]] == Identifier(k)
  {
    if k == 0 { Slice0(); }
    else if k == 1 { Slice1(); }
    else if k == 2 { Slice2(); }
    else if k == 3 { Slice3(); }
    else if k == 4 { Slice4(); }
    else if k == 5 { Slice5(); }
    else { Slice6(); }
  }

  // One lemma per slice keeps each proof about the 107-character string small.
  lemma Slice0() ensures KindNames[0..8] == "Eunknown" { }
  lemma Slice1() ensures KindNames[8..23] == "EnotJSONRequest" { }
  lemma Slice2() ensures KindNames[23..39] == "EreadRequestBody" { }
  lemma Slice3() ensures KindNames[39..60] == "EunmarshalRequestBody" { }
  lemma Slice4() ensures KindNames[60..76] == "EmarshalResponse" { }
  lemma Slice5() ensures KindNames[76..94] == "EwriteResponseBody" { }
  lemma Slice6() ensures KindNames[94..107] == "EhandlerError" { }

  /** `ErrorKind.String`: the generated name for 0..6, and
      "ErrorKind(<decimal>)" for every other integer. */
  function String(k: ErrorKind): (s: string)
    ensures |s| > 0 && ' ' !in s
    ensures 0 <= k < |KindIndex| - 1 ==> s == Identifier(k)
  {
    if k < 0 || k >= |KindIndex| - 1 then
      "ErrorKind(" + FormatInt(k) + ")"
    else
      TableSliceSpells(k);
      KindNames[KindIndex[k]..KindIndex[k + 1]]
  }

  /** Kinds 0..6 render as their identifiers; EtooLargeRequestBody, which
      the stale table does not cover, renders as "ErrorKind(7)". */
  lemma TooLargeRendersNumbered()
    ensures String(EtooLargeRequestBody) == "ErrorKind(7)"
    ensures String(EtooLargeRequestBody) != Identifier(EtooLargeRequestBody)
  {
  }

  /** The first kind in j..6 whose generated name is `s`. */
  function TableLookup(s: string, j: nat): (r: Option<ErrorKind>)
    requires j <= 7
    ensures r.Some? ==> j <= r.value < 7 && Identifier(r.value) == s
    decreases 7 - j
  {
    if j == 7 then None
    else if Identifier(j) == s then Some(j)
    else TableLookup(s, j + 1)
  }

  /** The kind a name stands for: a table name, or "ErrorKind(n)" for an n
      outside the table. */
  function ParseKind(s: string): Option<ErrorKind> {
    match TableLookup(s, 0)
    case Some(k) => Some(k)
    case None =>
      if |s| >= 11 && s[..10] == "ErrorKind(" && s[|s| - 1] == ')' then
        match ParseInt(s[10..|s| - 1])
        case Some(i) => if 0 <= i < 7 then None else Some(i)
        case None => None
      else None
  }

  /** No table name has the shape "ErrorKind(...)": the generated names
      differ from it in their second or third letter. */
  lemma TableNamesNotNumbered(j: int, d: string)
    requires 0 <= j < 7
    ensures Identifier(j) != "ErrorKind(" + d + ")"
  {
    var n := "ErrorKind(" + d + ")";
    assert n[1] == 'r' && n[2] == 'r';
  }

  lemma {:induction false} TableLookupMisses(d: string, j: nat)
    requires j <= 7
    ensures TableLookup("ErrorKind(" + d + ")", j) == None
    decreases 7 - j
  {
    if j < 7 {
      TableNamesNotNumbered(j, d);
      TableLookupMisses(d, j + 1);
    }
  }

  /** The eight declared identifiers are pairwise distinct. */
  lemma IdentifiersDistinct(i: ErrorKind, j: ErrorKind)
    requires Eunknown <= i <= EtooLargeRequestBody && Eunknown <= j <= EtooLargeRequestBody && i != j
    ensures Identifier(i) != Identifier(j)
  {
  }

  lemma {:induction false} TableLookupFinds(k: ErrorKind, j: nat)
    requires 0 <= j <= k < 7
    ensures TableLookup(Identifier(k), j) == Some(k)
    decreases 7 - j
  {
    if j < k {
      IdentifiersDistinct(j, k);
      TableLookupFinds(k, j + 1);
    }
  }

  /** Every integer's name reads back as that integer. */
  lemma StringRoundTrip(k: ErrorKind)
    ensures ParseKind(String(k)) == Some(k)
  {
    if 0 <= k < 7 {
      TableLookupFinds(k, 0);
    } else {
      TableLookupMisses(FormatInt(k), 0);
      var s := String(k);
      assert s[..10] == "ErrorKind(";
      assert s[10..|s| - 1] == FormatInt(k);
      FormatIntRoundTrip(k);
    }
  }

  /** Distinct kinds have distinct names, on the whole of `int`. */
  lemma StringInjective(i: ErrorKind, j: ErrorKind)
    requires String(i) == String(j)
    ensures i == j
  {
    StringRoundTrip(i);
    StringRoundTrip(j);
  }
}
