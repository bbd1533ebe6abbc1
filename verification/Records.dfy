/**
 * The captured document record and the way showResult (ui.ts) turns it
 * into rows: one row per field whose value is truthy, in a fixed order,
 * grouped by the top-level fields and then by each sub-record.
 */
module Records {
  import opened Values

  /** A record as a property bag: a property that is missing reads as undefined. */
  type Record = map<string, Value>

  /** A captured document: its common fields, its optional sub-records (present
      exactly when their key is in `subRecords`) and whether it carries a face image. */
  datatype CapturedId = CapturedId(fields: Record, subRecords: map<string, Record>, hasFaceImage: bool)

  /** One `if (data.key) fields.push([caption, data.key])` line of showResult. */
  datatype Entry = Entry(key: string, caption: string)

  /** One `[label, value]` pair handed to getFragmentForFields. */
  datatype Row = Row(caption: string, value: Value)

  /** One block of showResult: the record it reads (None for the top-level
      fields) and its entries in source order. */
  datatype Group = Group(source: Option<string>, entries: seq<Entry>)

  /** Property access: a missing property is undefined. */
  function Lookup(rec: Record, key: string): (v: Value)
    ensures key !in rec ==> v == Null
    ensures key in rec ==> v == rec[key]
  {
    if key in rec then rec[key] else Null
  }

  /** The sub-record named `key`, if the document carries it. */
  function SubRecord(id: CapturedId, key: string): (r: Option<Record>)
    ensures r.Some? <==> key in id.subRecords
  {
    if key in id.subRecords then Some(id.subRecords[key]) else None
  }

  /** The rows a run of guarded pushes collects: each entry whose value is truthy, in order. */
  function SelectRows(rec: Record, entries: seq<Entry>): seq<Row>
  {
    if entries == [] then []
    else
      var e := entries[|entries| - 1];
      var v := Lookup(rec, e.key);
      SelectRows(rec, entries[..|entries| - 1]) + (if Truthy(v) then [Row(e.caption, v)] else [])
  }

  /** The nodes getFragmentForFields appends: label and value of each row, in order. */
  function FieldsNodes(rows: seq<Row>): seq<Node>
  {
    if rows == [] then []
    else
      var last := rows[|rows| - 1];
      FieldsNodes(rows[..|rows| - 1]) + LabelAndValue(last.caption, last.value)
  }

  /** The record one block of showResult reads, if the document has it. */
  function GroupRecord(id: CapturedId, g: Group): (rec: Option<Record>)
    ensures g.source.None? ==> rec == Some(id.fields)
    ensures g.source.Some? ==> (rec.Some? <==> g.source.value in id.subRecords)
    ensures g.source.Some? && rec.Some? ==> rec.value == id.subRecords[g.source.value]
  {
    if g.source.None? then Some(id.fields) else SubRecord(id, g.source.value)
  }

  /** What one block of showResult appends: nothing when its sub-record is
      absent or none of its fields is truthy, otherwise the fragment of its rows. */
  function GroupNodes(id: CapturedId, g: Group): (r: seq<Node>)
    ensures g.source.Some? && g.source.value !in id.subRecords ==> r == []
    ensures r != [] ==> GroupRecord(id, g).Some? && SelectRows(GroupRecord(id, g).value, g.entries) != []
    ensures GroupRecord(id, g).Some? ==> r == FieldsNodes(SelectRows(GroupRecord(id, g).value, g.entries))
  {
    var rec := GroupRecord(id, g);
    if rec.None? then []
    else
      var rows := SelectRows(rec.value, g.entries);
      if |rows| > 0 then FieldsNodes(rows) else []
  }

  /** The blocks in `groups`, appended in order. */
  function GroupsNodes(id: CapturedId, groups: seq<Group>): seq<Node>
  {
    if groups == [] then []
    else GroupsNodes(id, groups[..|groups| - 1]) + GroupNodes(id, groups[|groups| - 1])
  }

  /** The face portrait, shown first when the document carries one. */
  function FaceNodes(id: CapturedId): (r: seq<Node>)
    ensures r != [] <==> id.hasFaceImage
    ensures id.hasFaceImage ==> r == [Label("Face"), FaceImage]
  {
    if id.hasFaceImage then [Label("Face"), FaceImage] else []
  }

  /** The whole content showResult puts into the result dialog. */
  function ResultContent(id: CapturedId): seq<Node>
  {
    FaceNodes(id) + GroupsNodes(id, ResultGroups)
  }

  /** The header of the result dialog. */
  function HeaderFor(isDocumentVerified: bool): (h: string)
    ensures h == "Document verified successfully" <==> isDocumentVerified
  {
    if isDocumentVerified then "Document verified successfully" else "Document is not verified"
  }

  // ---------------------------------------------------------------------
  // Properties of row selection and of the rendered fragment

  /** A row is selected exactly when some entry has a truthy value, and the
      row then carries that entry's caption and value. */
  lemma {:induction false} SelectRowsExact(rec: Record, entries: seq<Entry>, row: Row)
    ensures row in SelectRows(rec, entries) <==>
      exists k :: 0 <= k < |entries| && Truthy(Lookup(rec, entries[k].key))
                  && row == Row(entries[k].caption, Lookup(rec, entries[k].key))
  {
    if entries != [] {
      var init := entries[..|entries| - 1];
      SelectRowsExact(rec, init, row);
      assert forall k :: 0 <= k < |init| ==> init[k] == entries[k];
    }
  }

  /** Every selected row holds a truthy value: false, 0 and '' never become rows. */
  lemma {:induction false} SelectedRowsAreTruthy(rec: Record, entries: seq<Entry>)
    ensures forall r :: r in SelectRows(rec, entries) ==> Truthy(r.value)
  {
    if entries != [] {
      SelectedRowsAreTruthy(rec, entries[..|entries| - 1]);
    }
  }

  /** Selection keeps source order: selecting from two runs of entries is
      selecting from each and concatenating. */
  lemma {:induction false} SelectRowsAppend(rec: Record, first: seq<Entry>, second: seq<Entry>)
    ensures SelectRows(rec, first + second) == SelectRows(rec, first) + SelectRows(rec, second)
  {
    if second == [] {
      assert first + second == first;
    } else {
      var init := second[..|second| - 1];
      assert (first + second)[..|first + second| - 1] == first + init;
      SelectRowsAppend(rec, first, init);
    }
  }

  /** getFragmentForFields over n rows emits 2n nodes, label then value, in row order. */
  lemma {:induction false} FieldsNodesShape(rows: seq<Row>)
    ensures |FieldsNodes(rows)| == 2 * |rows|
    ensures forall i :: 0 <= i < |rows| ==>
      FieldsNodes(rows)[2 * i] == Label(rows[i].caption) && FieldsNodes(rows)[2 * i + 1] == Format(rows[i].value)
  {
    if rows != [] {
      var init, last := rows[..|rows| - 1], rows[|rows| - 1];
      FieldsNodesShape(init);
      var prefix, pair := FieldsNodes(init), LabelAndValue(last.caption, last.value);
      assert FieldsNodes(rows) == prefix + pair;
      forall i | 0 <= i < |rows|
        ensures FieldsNodes(rows)[2 * i] == Label(rows[i].caption)
        ensures FieldsNodes(rows)[2 * i + 1] == Format(rows[i].value)
      {
        if i < |init| {
          assert rows[i] == init[i];
          assert (prefix + pair)[2 * i] == prefix[2 * i];
          assert (prefix + pair)[2 * i + 1] == prefix[2 * i + 1];
        } else {
          assert (prefix + pair)[2 * i] == pair[0];
          assert (prefix + pair)[2 * i + 1] == pair[1];
        }
      }
    }
  }

  /** The top-level labels of a fragment are exactly the captions of its rows:
      a value element is never itself a label. */
  lemma {:induction false} FieldsNodesLabels(rows: seq<Row>, c: string)
    ensures Label(c) in FieldsNodes(rows) <==> exists r :: r in rows && r.caption == c
  {
    if rows != [] {
      var init := rows[..|rows| - 1];
      var last := rows[|rows| - 1];
      FieldsNodesLabels(init, c);
      var pair := LabelAndValue(last.caption, last.value);
      assert FieldsNodes(rows) == FieldsNodes(init) + pair;
      LabelAndValueLabels(last.caption, last.value, c);
      if Label(c) in FieldsNodes(init) {
        var r :| r in init && r.caption == c;
        assert r in rows;
      }
      forall r | r in rows && r.caption == c
        ensures Label(c) in FieldsNodes(rows)
      {
        if r != last {
          assert rows == init + [last];
        }
      }
    }
  }

  /** A field whose value is falsy never shows up, provided its caption is
      used by no other entry of the block. */
  lemma FalsyFieldNotShown(rec: Record, entries: seq<Entry>, k: nat)
    requires k < |entries|
    requires !Truthy(Lookup(rec, entries[k].key))
    requires forall j :: 0 <= j < |entries| && j != k ==> entries[j].caption != entries[k].caption
    ensures Label(entries[k].caption) !in FieldsNodes(SelectRows(rec, entries))
  {
    var rows := SelectRows(rec, entries);
    FieldsNodesLabels(rows, entries[k].caption);
    forall r | r in rows
      ensures r.caption != entries[k].caption
    {
      SelectRowsExact(rec, entries, r);
    }
  }

  /** showResult's Is Expired row appears only when the document is expired. */
  lemma NotExpiredNotShown(id: CapturedId)
    requires Lookup(id.fields, "isExpired") == Bool(false)
    ensures Label("Is Expired") !in GroupNodes(id, ResultGroups[0])
  {
    var entries := ResultGroups[0].entries;
    assert entries[14] == Entry("isExpired", "Is Expired");
    FalsyFieldNotShown(id.fields, entries, 14);
  }

  /** The content is the face portrait followed by each block's rows in order:
      it holds two nodes per truthy field of a present block. */
  lemma {:induction false} GroupsNodesLength(id: CapturedId, groups: seq<Group>)
    ensures |GroupsNodes(id, groups)| == 2 * RowCount(id, groups)
  {
    if groups != [] {
      GroupsNodesLength(id, groups[..|groups| - 1]);
      var g := groups[|groups| - 1];
      var rec := GroupRecord(id, g);
      if rec.Some? {
        FieldsNodesShape(SelectRows(rec.value, g.entries));
      }
    }
  }

  /** Block g shows a row captioned c: its record is present and one of its
      entries with that caption holds a truthy value. */
  predicate ShowsCaption(id: CapturedId, g: Group, c: string)
  {
    var rec := GroupRecord(id, g);
    rec.Some? && exists k :: 0 <= k < |g.entries| && g.entries[k].caption == c
                             && Truthy(Lookup(rec.value, g.entries[k].key))
  }

  /** A block shows a row label exactly when one of its entries with that
      caption holds a truthy value in the block's record. */
  lemma GroupLabels(id: CapturedId, g: Group, c: string)
    ensures Label(c) in GroupNodes(id, g) <==> ShowsCaption(id, g, c)
  {
    var rec := GroupRecord(id, g);
    if rec.Some? {
      var rows := SelectRows(rec.value, g.entries);
      FieldsNodesLabels(rows, c);
      if Label(c) in GroupNodes(id, g) {
        var r :| r in rows && r.caption == c;
        SelectRowsExact(rec.value, g.entries, r);
      }
      if ShowsCaption(id, g, c) {
        var k :| 0 <= k < |g.entries| && g.entries[k].caption == c
                 && Truthy(Lookup(rec.value, g.entries[k].key));
        SelectRowsExact(rec.value, g.entries, Row(c, Lookup(rec.value, g.entries[k].key)));
      }
    }
  }

  /** The appended blocks show a row label exactly when one of the blocks shows it. */
  lemma GroupsLabels(id: CapturedId, groups: seq<Group>, c: string)
    ensures Label(c) in GroupsNodes(id, groups) <==>
      exists i :: 0 <= i < |groups| && Label(c) in GroupNodes(id, groups[i])
  {
    if Label(c) in GroupsNodes(id, groups) {
      var i := LabelComesFromBlock(id, groups, c);
    }
    forall i | 0 <= i < |groups| && Label(c) in GroupNodes(id, groups[i])
      ensures Label(c) in GroupsNodes(id, groups)
    {
      BlockLabelIsShown(id, groups, c, i);
    }
  }

  /** A label of the appended blocks comes from one of them. */
  lemma {:induction false} LabelComesFromBlock(id: CapturedId, groups: seq<Group>, c: string) returns (i: nat)
    requires Label(c) in GroupsNodes(id, groups)
    ensures i < |groups| && Label(c) in GroupNodes(id, groups[i])
  {
    var init, last := groups[..|groups| - 1], groups[|groups| - 1];
    assert GroupsNodes(id, groups) == GroupsNodes(id, init) + GroupNodes(id, last);
    if Label(c) in GroupsNodes(id, init) {
      i := LabelComesFromBlock(id, init, c);
      assert groups[i] == init[i];
    } else {
      i := |groups| - 1;
    }
  }

  /** A label of one block is a label of the appended blocks. */
  lemma {:induction false} BlockLabelIsShown(id: CapturedId, groups: seq<Group>, c: string, i: nat)
    requires i < |groups| && Label(c) in GroupNodes(id, groups[i])
    ensures Label(c) in GroupsNodes(id, groups)
  {
    var init, last := groups[..|groups| - 1], groups[|groups| - 1];
    assert GroupsNodes(id, groups) == GroupsNodes(id, init) + GroupNodes(id, last);
    if i < |init| {
      assert init[i] == groups[i];
      BlockLabelIsShown(id, init, c, i);
    } else {
      assert groups[i] == last;
    }
  }

  /** Every top-level label of the result dialog is the face label or the
      caption of a truthy field of a present block, and each of those is shown.
      Labels nested inside a permit or restriction value are not counted here. */
  lemma ContentLabels(id: CapturedId, c: string)
    ensures Label(c) in ResultContent(id) <==>
      (id.hasFaceImage && c == "Face")
      || exists i :: 0 <= i < |ResultGroups| && ShowsCaption(id, ResultGroups[i], c)
  {
    GroupsLabels(id, ResultGroups, c);
    forall i | 0 <= i < |ResultGroups|
      ensures Label(c) in GroupNodes(id, ResultGroups[i]) <==> ShowsCaption(id, ResultGroups[i], c)
    {
      GroupLabels(id, ResultGroups[i], c);
    }
  }

  /** No entry of the table carries caption c. */
  predicate NoCaption(entries: seq<Entry>, c: string)
  {
    forall k :: 0 <= k < |entries| ==> entries[k].caption != c
  }

  /** With isExpired false, no top-level Is Expired label appears anywhere in
      the result dialog: the common block is the only one with that caption. */
  lemma NotExpiredNeverShown(id: CapturedId)
    requires Lookup(id.fields, "isExpired") == Bool(false)
    ensures Label("Is Expired") !in ResultContent(id)
  {
    OnlyCommonBlockHasIsExpired();
    OnlyFirstBlockShows(id, ResultGroups, "Is Expired");
    NotExpiredNotShown(id);
  }

  /** A caption that no block but the first has is shown exactly when the
      first block shows it. */
  lemma OnlyFirstBlockShows(id: CapturedId, groups: seq<Group>, c: string)
    requires |groups| > 0
    requires forall i :: 1 <= i < |groups| ==> NoCaption(groups[i].entries, c)
    ensures Label(c) in GroupsNodes(id, groups) <==> Label(c) in GroupNodes(id, groups[0])
  {
    GroupsLabels(id, groups, c);
    forall i | 1 <= i < |groups|
      ensures Label(c) !in GroupNodes(id, groups[i])
    {
      GroupLabels(id, groups[i], c);
    }
  }

  /** Of all the blocks, only the common one has an Is Expired entry. */
  lemma OnlyCommonBlockHasIsExpired()
    ensures forall i :: 1 <= i < |ResultGroups| ==> NoCaption(ResultGroups[i].entries, "Is Expired")
  {
    NoIsExpiredInLicenceBarcodes();
    NoIsExpiredInOtherBarcodes();
    NoIsExpiredInMrzAndViz();
  }

  lemma NoIsExpiredInLicenceBarcodes()
    ensures NoCaption(AamvaEntries, "Is Expired")
    ensures NoCaption(UsUniformedServicesEntries, "Is Expired")
  {
  }

  lemma NoIsExpiredInOtherBarcodes()
    ensures NoCaption(ArgentinaIdEntries, "Is Expired")
    ensures NoCaption(ColombiaIdEntries, "Is Expired")
    ensures NoCaption(ColombiaDlEntries, "Is Expired")
    ensures NoCaption(SouthAfricaIdEntries, "Is Expired")
    ensures NoCaption(SouthAfricaDlEntries, "Is Expired")
    ensures NoCaption(CommonAccessCardEntries, "Is Expired")
  {
  }

  lemma NoIsExpiredInMrzAndViz()
    ensures NoCaption(ApecEntries, "Is Expired")
    ensures NoCaption(ChinaMainlandEntries, "Is Expired")
    ensures NoCaption(ChinaExitEntryEntries, "Is Expired")
    ensures NoCaption(ChinaOneWayFrontEntries, "Is Expired")
    ensures NoCaption(ChinaOneWayBackEntries, "Is Expired")
    ensures NoCaption(MrzEntries, "Is Expired")
    ensures NoCaption(UsVisaEntries, "Is Expired")
    ensures NoCaption(VizEntries, "Is Expired")
  {
  }

  /** The number of rows showResult displays for the given blocks. */
  function RowCount(id: CapturedId, groups: seq<Group>): nat
  {
    if groups == [] then 0
    else
      var g := groups[|groups| - 1];
      var rec := GroupRecord(id, g);
      RowCount(id, groups[..|groups| - 1]) + (if rec.None? then 0 else |SelectRows(rec.value, g.entries)|)
  }

  // ---------------------------------------------------------------------
  // The blocks of showResult, in source order, with their captions as written

  const ResultGroups: seq<Group> := [
    Group(None, CommonEntries),
    Group(Some("aamvaBarcodeResult"), AamvaEntries),
    Group(Some("argentinaIdBarcodeResult"), ArgentinaIdEntries),
    Group(Some("apecBusinessTravelCardMrzResult"), ApecEntries),
    Group(Some("chinaMainlandTravelPermitMrzResult"), ChinaMainlandEntries),
    Group(Some("chinaExitEntryPermitMrzResult"), ChinaExitEntryEntries),
    Group(Some("chinaOneWayPermitFrontMrzResult"), ChinaOneWayFrontEntries),
    Group(Some("chinaOneWayPermitBackMrzResult"), ChinaOneWayBackEntries),
    Group(Some("colombiaIdBarcodeResult"), ColombiaIdEntries),
    Group(Some("colombiaDlBarcodeResult"), ColombiaDlEntries),
    Group(Some("mrzResult"), MrzEntries),
    Group(Some("usVisaVIZResult"), UsVisaEntries),
    Group(Some("southAfricaIdBarcodeResult"), SouthAfricaIdEntries),
    Group(Some("southAfricaDlBarcodeResult"), SouthAfricaDlEntries),
    Group(Some("usUniformedServicesBarcodeResult"), UsUniformedServicesEntries),
    Group(Some("commonAccessCardBarcodeResult"), CommonAccessCardEntries),
    Group(Some("vizResult"), VizEntries)
  ]

  const CommonEntries: seq<Entry> := [
    Entry("firstName", "First Name"),
    Entry("lastName", "Last Name"),
    Entry("fullName", "Full Name"),
    Entry("sex", "Sex"),
    Entry("dateOfBirth", "Date of Birth"),
    Entry("age", "Age"),
    Entry("nationality", "Nationality"),
    Entry("address", "Address"),
    Entry("documentType", "Document Type"),
    Entry("issuingCountryIso", "Issuing Country ISO"),
    Entry("issuingCountry", "Issuing Country"),
    Entry("documentNumber", "Document Number"),
    Entry("documentAdditionalNumber", "Document Additional Number"),
    Entry("dateOfExpiry", "Date of Expiry"),
    Entry("isExpired", "Is Expired"),
    Entry("dateOfIssue", "Date of Issue")
  ]

  const AamvaEntries: seq<Entry> := [
    Entry("aamvaVersion", "AAMVA Version"),
    Entry("isRealId", "Is Real ID"),
    Entry("aliasFamilyName", "Alias Family Name"),
    Entry("aliasGivenName", "Alias Given Name"),
    Entry("aliasSuffixName", "Alias Suffix Name"),
    Entry("driverNamePrefix", "Driver Name Prefix"),
    Entry("driverNameSuffix", "Driver Name Suffix"),
    Entry("endorsementsCode", "Endorsements Code"),
    Entry("eyeColor", "Eye Color"),
    Entry("firstNameTruncation", "First Name Truncation"),
    Entry("hairColor", "Hair Color"),
    Entry("heightCm", "Height CM"),
    Entry("heightInch", "Height Inch"),
    Entry("IIN", "IIN"),
    Entry("issuingJurisdiction", "Issuing Jurisdiction"),
    Entry("issuingJurisdictionIso", "Issuing Jurisdiction ISO"),
    Entry("jurisdictionVersion", "Jurisdiction Version"),
    Entry("lastNameTruncation", "Last Name Truncation"),
    Entry("firstNameWithoutMiddleName", "First Name Without Middle Name"),
    Entry("middleName", "Middle Name"),
    Entry("middleNameTruncation", "Middle Name Truncation"),
    Entry("placeOfBirth", "Place Of Birth"),
    Entry("race", "Race"),
    Entry("restrictionsCode", "Restrictions Code"),
    Entry("vehicleClass", "Vehicle Class"),
    Entry("weightKg", "Weight Kg"),
    Entry("weightLbs", "Weight Lbs"),
    Entry("cardRevisionDate", "Card Revision Date"),
    Entry("documentDiscriminatorNumber", "Document Discriminator Number"),
    Entry("barcodeDataElements", "Barcode Data Elements")
  ]

  const ArgentinaIdEntries: seq<Entry> := [
    Entry("personalIdNumber", "Personal Id Number"),
    Entry("documentCopy", "Document Copy")
  ]

  const ApecEntries: seq<Entry> := [
    Entry("documentCode", "Document Code"),
    Entry("capturedMrz", "Captured MRZ"),
    Entry("passportNumber", "Passport Number"),
    Entry("passportIssuerIso", "Passport Issuer ISO"),
    Entry("passportDateOfExpiry", "Passport Date of Expiry")
  ]

  const ChinaMainlandEntries: seq<Entry> := [
    Entry("documentCode", "Document Code"),
    Entry("capturedMrz", "Captured MRZ"),
    Entry("personalIdNumber", "Personal ID Number"),
    Entry("renewalTimes", "Renewal times"),
    Entry("fullNameSimplifiedChinese", "Full Name Simplified Chinese"),
    Entry("omittedCharacterCountInGBKName", "Omitted Character Count In GBK Name"),
    Entry("omittedNameCount", "Omitted Name Count"),
    Entry("issuingAuthorityCode", "Issuing Authority Code")
  ]

  const ChinaExitEntryEntries: seq<Entry> := [
    Entry("documentCode", "Document Code"),
    Entry("capturedMrz", "Captured MRZ")
  ]

  const ChinaOneWayFrontEntries: seq<Entry> := [
    Entry("documentCode", "Document Code"),
    Entry("fullNameSimplifiedChinese", "Full Name in Simplified Chinese"),
    Entry("capturedMrz", "Captured MRZ")
  ]

  const ChinaOneWayBackEntries: seq<Entry> := [
    Entry("documentCode", "Document Code"),
    Entry("namesAreTruncated", "Names Are Truncated"),
    Entry("capturedMrz", "Captured MRZ")
  ]

  const ColombiaIdEntries: seq<Entry> := [
    Entry("bloodType", "Blood Type")
  ]

  const ColombiaDlEntries: seq<Entry> := [
    Entry("identificationType", "Identification Type"),
    Entry("categories", "Categories")
  ]

  const MrzEntries: seq<Entry> := [
    Entry("documentCode", "Document Code"),
    Entry("namesAreTruncated", "Names Are Truncated"),
    Entry("optional", "Optional"),
    Entry("optional1", "Optional1"),
    Entry("capturedMrz", "Captured Mrz")
  ]

  const UsVisaEntries: seq<Entry> := [
    Entry("visaNumber", "Visa Number"),
    Entry("passportNumber", "Passport Number")
  ]

  const SouthAfricaIdEntries: seq<Entry> := [
    Entry("countryOfBirth", "Country Of Birth"),
    Entry("countryOfBirthIso", "Country Of Birth Iso"),
    Entry("citizenshipStatus", "Citizenship Status"),
    Entry("personalIdNumber", "Personal Id Number")
  ]

  const SouthAfricaDlEntries: seq<Entry> := [
    Entry("version", "Version"),
    Entry("licenseCountryOfIssue", "License Country Of Issue"),
    Entry("personalIdNumber", "Personal Id Number"),
    Entry("personalIdNumberType", "Personal Id Number Type"),
    Entry("documentCopy", "Document Copy"),
    Entry("driverRestrictionCodes", "Driver Restriction Codes"),
    Entry("professionalDrivingPermit", "Professional Driving Permit"),
    Entry("vehicleRestrictions", "Vehicle Restrictions")
  ]

  const UsUniformedServicesEntries: seq<Entry> := [
    Entry("bloodType", "Blood Type"),
    Entry("branchOfService", "Branch Of Service"),
    Entry("champusEffectiveDate", "Champus Effective Date"),
    Entry("champusExpiryDate", "Champus Expiry Date"),
    Entry("civilianHealthCareFlagCode", "Civilian Health Care Flag Code"),
    Entry("civilianHealthCareFlagDescription", "Civilian Health Care Flag Description"),
    Entry("commissaryFlagCode", "Commissary Flag Code"),
    Entry("commissaryFlagDescription", "Commissary Flag Description"),
    Entry("deersDependentSuffixCode", "Deers Dependent Suffix Code"),
    Entry("deersDependentSuffixDescription", "Deers Dependent Suffix Description"),
    Entry("directCareFlagCode", "Direct Care Flag Code"),
    Entry("directCareFlagDescription", "Direct Care Flag Description"),
    Entry("exchangeFlagCode", "Exchange Flag Code"),
    Entry("exchangeFlagDescription", "Exchange Flag Description"),
    Entry("eyeColor", "Eye Color"),
    Entry("familySequenceNumber", "Family Sequence Number"),
    Entry("formNumber", "Form Number"),
    Entry("genevaConventionCategory", "Geneva Convention Category"),
    Entry("hairColor", "Hair Color"),
    Entry("height", "Height"),
    Entry("jpegData", "Jpeg Data"),
    Entry("mwrFlagCode", "Mwr Flag Code"),
    Entry("mwrFlagDescription", "Mwr Flag Description"),
    Entry("payGrade", "Pay Grade"),
    Entry("personDesignatorDocument", "Person Designator Document"),
    Entry("rank", "Rank"),
    Entry("relationshipCode", "Relationship Code"),
    Entry("relationshipDescription", "Relationship Description"),
    Entry("securityCode", "Security Code"),
    Entry("serviceCode", "Service Code"),
    Entry("sponsorFlag", "Sponsor Flag"),
    Entry("sponsorName", "Sponsor Name"),
    Entry("sponsorPersonDesignatorIdentifier", "Sponsor Person Designator Identifier"),
    Entry("statusCode", "Status Code"),
    Entry("statusCodeDescription", "Status Code Description"),
    Entry("version", "Version"),
    Entry("weight", "Weight")
  ]

  const CommonAccessCardEntries: seq<Entry> := [
    Entry("version", "version"),
    Entry("personDesignatorDocument", "person designator document"),
    Entry("personDesignatorTypeCode", "person designator type code"),
    Entry("ediPersonIdentifier", "edi person identifier"),
    Entry("personnelCategoryCode", "personnel category code"),
    Entry("branchOfService", "branch of service"),
    Entry("personnelEntitlementConditionType", "personnel entitlement condition type"),
    Entry("rank", "rank"),
    Entry("payPlanCode", "play pan code"),
    Entry("payPlanGradeCode", "play pan grade code"),
    Entry("cardInstanceIdentifier", "card instance identifier"),
    Entry("personMiddleInitial", "person middle initial")
  ]

  const VizEntries: seq<Entry> := [
    Entry("additionalAddressInformation", "Additional Address Information"),
    Entry("additionalNameInformation", "Additional Name Information"),
    Entry("documentAdditionalNumber", "Document Additional Number"),
    Entry("employer", "Employer"),
    Entry("issuingAuthority", "Issuing Authority"),
    Entry("issuingJurisdiction", "Issuing Jurisdiction"),
    Entry("maritalStatus", "Marital Status"),
    Entry("personalIdNumber", "Personal Id Number"),
    Entry("placeOfBirth", "Place Of Birth"),
    Entry("profession", "Profession"),
    Entry("race", "Race"),
    Entry("religion", "Religion"),
    Entry("residentialStatus", "Residential Status"),
    Entry("capturedSides", "Captured Sides"),
    Entry("isBackSideCaptureSupported", "Is Back Side Capture Supported")
  ]
}
