/** Column definitions of the farmers table: substring filters on farmer id,
    name, address and mobile number, and the status filter. The status
    predicate is declared as `(row, filterValue)` while the table library passes
    the column id second; it is modelled as written, as called and as evidently
    intended. */
module FarmerColumns {
  import opened JsStrings
  import opened Inventory

  /** Farmer id: case-sensitive substring. */
  predicate FarmerIdFilter(row: Farmer, filterValue: string) {
    Includes(row.farmerId, filterValue)
  }

  /** Name: case-insensitive substring. */
  predicate NameFilter(row: Farmer, filterValue: string) {
    ContainsIgnoreCase(row.name, filterValue)
  }

  /** Address: case-insensitive substring. */
  predicate AddressFilter(row: Farmer, filterValue: string) {
    ContainsIgnoreCase(row.address, filterValue)
  }

  /** Mobile number: case-sensitive substring. */
  predicate MobileFilter(row: Farmer, filterValue: string) {
    Includes(row.mobileNumber, filterValue)
  }

  /** The id and mobile filters keep exactly the rows in which the typed text
      occurs verbatim; the name and address filters keep exactly the rows in which
      it occurs after lower-casing both sides. */
  lemma TextFiltersMeaning(row: Farmer, v: string)
    ensures FarmerIdFilter(row, v) ==> exists i :: OccursAt(row.farmerId, v, i)
    ensures (exists i :: OccursAt(row.farmerId, v, i)) ==> FarmerIdFilter(row, v)
    ensures MobileFilter(row, v) ==> exists i :: OccursAt(row.mobileNumber, v, i)
    ensures (exists i :: OccursAt(row.mobileNumber, v, i)) ==> MobileFilter(row, v)
    ensures NameFilter(row, v) ==> exists i :: OccursAt(ToLower(row.name), ToLower(v), i)
    ensures (exists i :: OccursAt(ToLower(row.name), ToLower(v), i)) ==> NameFilter(row, v)
    ensures AddressFilter(row, v) ==> exists i :: OccursAt(ToLower(row.address), ToLower(v), i)
    ensures (exists i :: OccursAt(ToLower(row.address), ToLower(v), i)) ==> AddressFilter(row, v)
  {
    IncludesIff(row.farmerId, v);
    IncludesIff(row.mobileNumber, v);
    ContainsIgnoreCaseIff(row.name, v);
    ContainsIgnoreCaseIff(row.address, v);
  }

  /** The id filter distinguishes case where the name filter does not: a farmer
      with id "FRM01" named "Ram" is found by "ram" under name but not by "frm"
      under id. */
  lemma IdCaseSensitiveNameNot(row: Farmer)
    requires row.farmerId == "FRM01" && row.name == "Ram"
    ensures !FarmerIdFilter(row, "frm")
    ensures NameFilter(row, "ram")
  {
    IncludesFirstCharAbsent("FRM01", "frm");
    ToLowerOfLower("ram");
    assert ToLower("Ram") == "ram";
    IncludesSelf("ram");
  }

  /** The empty filter value keeps every farmer under each text filter and
      under the status filter as written. */
  lemma EmptyFilterKeepsAll(row: Farmer)
    ensures FarmerIdFilter(row, "") && NameFilter(row, "")
    ensures AddressFilter(row, "") && MobileFilter(row, "")
    ensures StatusFilter(row, "")
  {
    IncludesEmpty(row.farmerId);
    IncludesEmpty(row.mobileNumber);
    IncludesEmpty(ToLower(row.name));
    IncludesEmpty(ToLower(row.address));
    IncludesEmpty(StatusLabel(row.isVerified));
  }

  // ---------------------------------------------------------------------------
  // Status: declared as (row, s)

  function StatusLabel(isVerified: bool): string {
    if isVerified then "verified" else "unverified"
  }

  /** "verified" or "unverified", by row, contains s lower-cased. */
  predicate StatusFilter(row: Farmer, s: string) {
    Includes(StatusLabel(row.isVerified), ToLower(s))
  }

  /** "un" keeps exactly the unverified farmers; "verified" keeps every farmer,
      since "unverified" contains it. */
  lemma StatusFilterCases(row: Farmer)
    ensures StatusFilter(row, "un") <==> !row.isVerified
    ensures StatusFilter(row, "verified")
  {
    StatusFilterUn(row);
    StatusFilterVerified(row);
  }

  lemma StatusFilterUn(row: Farmer)
    ensures StatusFilter(row, "un") <==> !row.isVerified
  {
    ToLowerOfLower("un");
    if row.isVerified {
      IncludesFirstCharAbsent("verified", "un");
    } else {
      assert IsPrefix("un", "unverified");
    }
  }

  lemma StatusFilterVerified(row: Farmer)
    ensures StatusFilter(row, "verified")
  {
    VerifiedIsLower();
    StatusLabelContainsVerified(row.isVerified);
  }

  lemma VerifiedIsLower()
    ensures ToLower("verified") == "verified"
  {
    ToLowerOfLower("verified");
  }

  /** Both labels contain "verified". */
  lemma StatusLabelContainsVerified(isVerified: bool)
    ensures Includes(StatusLabel(isVerified), "verified")
  {
    var text := StatusLabel(isVerified);
    assert OccursAt(text, "verified", |text| - 8);
    OccursIncludes(text, "verified", |text| - 8);
  }

  // ---------------------------------------------------------------------------
  // As called by the table: the second argument is the column id

  const StatusColumnId := "isVerified"

  predicate StatusFilterAsCalled(row: Farmer, columnId: string, filterValue: string) {
    StatusFilter(row, columnId)
  }

  /** As called, the status filter hides every farmer whatever is typed, since
      neither "verified" nor "unverified" contains "isverified". */
  lemma StatusFilterAsCalledHidesAll(row: Farmer, filterValue: string)
    ensures !StatusFilterAsCalled(row, StatusColumnId, filterValue)
  {
    StatusFilterMissesLong(row, StatusColumnId);
  }

  /** No pattern of ten or more characters that does not start with "u" (in
      either case) matches either status label. */
  lemma StatusFilterMissesLong(row: Farmer, s: string)
    requires |s| >= 10 && LowerChar(s[0]) != 'u'
    ensures !StatusFilter(row, s)
  {
    var t := ToLower(s);
    if row.isVerified {
      IncludesTooLong("verified", t);
    } else {
      assert !IsPrefix(t, "unverified") by {
        assert t[0] != "unverified"[0];
      }
      IncludesTooLong("unverified"[1..], t);
    }
  }

  // ---------------------------------------------------------------------------
  // As evidently intended

  predicate StatusFilterCorrected(row: Farmer, columnId: string, filterValue: string) {
    StatusFilter(row, filterValue)
  }

  /** With the typed value as pattern, "unverified" keeps exactly the unverified
      farmers, "verified" keeps them all, and the empty filter keeps them all. */
  lemma StatusFilterCorrectedCases(row: Farmer)
    ensures StatusFilterCorrected(row, StatusColumnId, "unverified") <==> !row.isVerified
    ensures StatusFilterCorrected(row, StatusColumnId, "verified")
    ensures StatusFilterCorrected(row, StatusColumnId, "")
  {
    StatusFilterUnverified(row);
    StatusFilterVerified(row);
    IncludesEmpty(StatusLabel(row.isVerified));
  }

  lemma StatusFilterUnverified(row: Farmer)
    ensures StatusFilter(row, "unverified") <==> !row.isVerified
  {
    ToLowerOfLower("unverified");
    if row.isVerified {
      IncludesTooLong("verified", "unverified");
    } else {
      IncludesSelf("unverified");
    }
  }

}
