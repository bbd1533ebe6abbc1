/**
 * The values a captured document exposes and the DOM shape the result
 * presenter renders for each of them (getDOMOfFormattedValue in ui.ts).
 * DOM nodes are abstracted to the `Node` datatype: what a reader sees,
 * not how the browser stores it.
 */
module Values {

  datatype Option<+T> = None | Some(value: T)

  /** A field value as the document-capture SDK hands it over. */
  datatype Value =
    | Null                                   // null or undefined
    | Str(s: string)
    | Num(n: int)
    | Bool(b: bool)
      // a DateResult; a component that is not a number is None
    | Date(day: Option<int>, month: Option<int>, year: Option<int>)
      // a ProfessionalDrivingPermit
    | Permit(codes: Value, dateOfExpiry: Value)
      // a VehicleRestriction
    | Restriction(vehicleCode: Value, vehicleRestriction: Value, dateOfIssue: Value)
    | Arr(items: seq<Value>)

  /** JavaScript truthiness of a value: objects and arrays are always truthy. */
  predicate Truthy(v: Value)
  {
    match v
    case Null => false
    case Str(s) => s != ""
    case Num(n) => n != 0
    case Bool(b) => b
    case _ => true
  }

  /** The rendered DOM, one constructor per kind of element the presenter builds. */
  datatype Node =
    | Label(text: string)                       // <p class="label">text</p>
    | EmptyMarker                               // <p><i>empty</i></p>
    | Text(text: string)                        // <p>text</p>
    | NumberText(n: int)                        // <p> holding a number as text
    | DateText(day: int, month: int, year: int) // <p> holding a locale date
    | Block(children: seq<Node>)                // <div> of label/value pairs
    | Paragraph(children: seq<Node>)            // <p> holding formatted array elements
    | FaceImage                                 // <img> of the face portrait

  /** A DateResult can be shown only when day, month and year are all numbers. */
  predicate HasFullDate(v: Value)
    requires v.Date?
  {
    v.day.Some? && v.month.Some? && v.year.Some?
  }

  /** The values the presenter shows as the "empty" marker. */
  predicate ShownAsEmpty(v: Value)
  {
    v == Null || v == Str("") || (v.Date? && !HasFullDate(v))
  }

  /** The DOM element that getDOMOfFormattedValue builds for a value. */
  function Format(v: Value): (r: Node)
    ensures r == EmptyMarker <==> ShownAsEmpty(v)
    ensures !r.Label?
    ensures v.Str? && v.s != "" ==> r == Text(v.s)
    ensures v.Num? ==> r == NumberText(v.n)
    ensures v.Bool? ==> r == Text(if v.b then "yes" else "no")
    ensures v.Date? && HasFullDate(v) ==> r == DateText(v.day.value, v.month.value, v.year.value)
    ensures v.Arr? ==> r.Paragraph? && |r.children| == |v.items|
    ensures v.Arr? ==> forall i :: 0 <= i < |v.items| ==> r.children[i] == Format(v.items[i])
    ensures v.Permit? || v.Restriction? ==> r.Block?
  {
    match v
    case Null => EmptyMarker
    case Str(s) => if s == "" then EmptyMarker else Text(s)
    case Bool(b) => Text(if b then "yes" else "no")
    case Date(d, m, y) =>
      if d.Some? && m.Some? && y.Some? then DateText(d.value, m.value, y.value) else EmptyMarker
    case Permit(codes, expiry) =>
      Block([Label("Codes"), Format(codes), Label("Date of Expiry"), Format(expiry)])
    case Restriction(code, restriction, issued) =>
      Block([Label("Vehicle Code"), Format(code), Label("Vehicle Restriction"), Format(restriction),
             Label("Date of Issue"), Format(issued)])
    case Arr(items) => Paragraph(seq(|items|, i requires 0 <= i < |items| => Format(items[i])))
    case Num(n) => NumberText(n)
  }

  /** getFragmentForLabelAndValue: a label element followed by the formatted value. */
  function LabelAndValue(labelText: string, v: Value): seq<Node>
  {
    [Label(labelText), Format(v)]
  }

  /** The only top-level label in a label/value fragment is the one it was
      given: a formatted value is never itself a label, whatever the value
      (a permit or restriction block holds labels of its own, one level down). */
  lemma LabelAndValueLabels(labelText: string, v: Value, c: string)
    ensures Label(c) in LabelAndValue(labelText, v) <==> c == labelText
  {
  }

  /** A driving permit renders as the label/value fragments of its codes and
      its expiry date, a vehicle restriction as those of its code, its
      restriction and its issue date, each sub-value formatted in turn. */
  lemma FormatNestedBlocks(v: Value)
    ensures v.Permit? ==>
      Format(v) == Block(LabelAndValue("Codes", v.codes) + LabelAndValue("Date of Expiry", v.dateOfExpiry))
    ensures v.Restriction? ==>
      Format(v) == Block(LabelAndValue("Vehicle Code", v.vehicleCode)
                         + LabelAndValue("Vehicle Restriction", v.vehicleRestriction)
                         + LabelAndValue("Date of Issue", v.dateOfIssue))
  {
    match v
    case Permit(codes, expiry) => PermitBlock(codes, expiry);
    case Restriction(code, restriction, issued) => RestrictionBlock(code, restriction, issued);
    case _ =>
  }

  lemma PermitBlock(codes: Value, expiry: Value)
    ensures Format(Permit(codes, expiry))
         == Block(LabelAndValue("Codes", codes) + LabelAndValue("Date of Expiry", expiry))
  {
    var c, e := Format(codes), Format(expiry);
    assert LabelAndValue("Codes", codes) + LabelAndValue("Date of Expiry", expiry)
        == [Label("Codes"), c, Label("Date of Expiry"), e];
  }

  lemma RestrictionBlock(code: Value, restriction: Value, issued: Value)
    ensures Format(Restriction(code, restriction, issued))
         == Block(LabelAndValue("Vehicle Code", code) + LabelAndValue("Vehicle Restriction", restriction)
                  + LabelAndValue("Date of Issue", issued))
  {
    var c, r, i := Format(code), Format(restriction), Format(issued);
    assert LabelAndValue("Vehicle Code", code) + LabelAndValue("Vehicle Restriction", restriction)
           + LabelAndValue("Date of Issue", issued)
        == [Label("Vehicle Code"), c, Label("Vehicle Restriction"), r, Label("Date of Issue"), i];
  }
}
