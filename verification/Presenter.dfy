/**
 * The result presenter of ui.ts: the DOM state the capture flow touches
 * (the mode selector, the alert dialog, the result dialog) as a class whose
 * methods change it in place, plus the loops that build the result rows.
 */
module Presenter {
  import opened Values
  import opened Records

  /** Runs the guarded pushes of one showResult block over its entries. */
  method CollectRows(rec: Record, entries: seq<Entry>) returns (rows: seq<Row>)
    ensures rows == SelectRows(rec, entries)
    ensures |rows| <= |entries|
    ensures forall r :: r in rows ==> Truthy(r.value)
  {
    rows := [];
    var i := 0;
    while i < |entries|
      invariant 0 <= i <= |entries|
      invariant rows == SelectRows(rec, entries[..i])
      invariant |rows| <= i
    {
      var v := Lookup(rec, entries[i].key);
      if Truthy(v) {
        rows := rows + [Row(entries[i].caption, v)];
      }
      assert entries[..i + 1][..i] == entries[..i];
      i := i + 1;
    }
    assert entries[..i] == entries;
    SelectedRowsAreTruthy(rec, entries);
  }

  /** getFragmentForFields: appends label and value nodes for each row. */
  method FragmentForFields(fields: seq<Row>) returns (nodes: seq<Node>)
    ensures nodes == FieldsNodes(fields)
    ensures |nodes| == 2 * |fields|
    ensures forall i :: 0 <= i < |fields| ==>
      nodes[2 * i] == Label(fields[i].caption) && nodes[2 * i + 1] == Format(fields[i].value)
  {
    nodes := [];
    var i := 0;
    while i < |fields|
      invariant 0 <= i <= |fields|
      invariant nodes == FieldsNodes(fields[..i])
    {
      nodes := nodes + LabelAndValue(fields[i].caption, fields[i].value);
      assert fields[..i + 1][..i] == fields[..i];
      i := i + 1;
    }
    assert fields[..i] == fields;
    FieldsNodesShape(fields);
  }

  /** The fragment showResult assembles from the given blocks: the face
      portrait, then each block in order, a block only when it has rows. */
  method BuildResult(id: CapturedId, groups: seq<Group>) returns (content: seq<Node>)
    ensures content == FaceNodes(id) + GroupsNodes(id, groups)
    ensures |content| == |FaceNodes(id)| + 2 * RowCount(id, groups)
  {
    var blocks: seq<Node> := [];
    var i := 0;
    while i < |groups|
      invariant 0 <= i <= |groups|
      invariant blocks == GroupsNodes(id, groups[..i])
    {
      var g := groups[i];
      var rec := GroupRecord(id, g);
      if rec.Some? {
        var rows := CollectRows(rec.value, g.entries);
        if |rows| > 0 {
          var fragment := FragmentForFields(rows);
          blocks := blocks + fragment;
        }
      }
      assert groups[..i + 1][..i] == groups[..i];
      i := i + 1;
    }
    assert groups[..i] == groups;
    GroupsNodesLength(id, groups);
    content := FaceNodes(id) + blocks;
  }

  /** The fragment showResult assembles for a document: the face portrait,
      then the blocks of ResultGroups in source order. */
  method BuildResultContent(id: CapturedId) returns (content: seq<Node>)
    ensures content == ResultContent(id)
  {
    content := BuildResult(id, ResultGroups);
  }

  /** The buttons the presenter writes or looks up in the alert dialog. */
  datatype AlertButton = CloseButton | PrintButton

  /** The alert dialog's content: its paragraph text and its buttons. */
  datatype AlertMarkup = AlertMarkup(text: string, buttons: seq<AlertButton>)

  /** The markup showWarning writes: an empty paragraph and a single Close button. */
  const WarningMarkup := AlertMarkup("", [CloseButton])

  /** querySelector for a button of the given kind: the first one, if any. */
  function FindButton(buttons: seq<AlertButton>, kind: AlertButton): (r: Option<nat>)
    ensures r.None? <==> kind !in buttons
    ensures r.Some? ==> r.value < |buttons| && buttons[r.value] == kind
                        && forall j :: 0 <= j < r.value ==> buttons[j] != kind
  {
    if buttons == [] then None
    else if buttons[0] == kind then Some(0)
    else
      var rest := FindButton(buttons[1..], kind);
      if rest.None? then None else Some(rest.value + 1)
  }

  /** querySelector('button.active'): the first selector button marked active. */
  function FirstActive(active: seq<bool>): (r: Option<nat>)
    ensures r.None? <==> forall i :: 0 <= i < |active| ==> !active[i]
    ensures r.Some? ==> r.value < |active| && active[r.value]
                        && forall j :: 0 <= j < r.value ==> !active[j]
  {
    if active == [] then None
    else if active[0] then Some(0)
    else
      var rest := FirstActive(active[1..]);
      if rest.None? then None else Some(rest.value + 1)
  }

  /** At most one selector button carries the class `active`. */
  predicate AtMostOneActive(active: seq<bool>)
  {
    forall i, j :: 0 <= i < |active| && 0 <= j < |active| && active[i] && active[j] ==> i == j
  }

  /** The selector after onModeSwitched(b): the first active button loses the
      class, then b gains it. */
  function SwitchedTo(active: seq<bool>, b: nat): (r: seq<bool>)
    requires b < |active|
    ensures |r| == |active| && r[b]
    ensures AtMostOneActive(active) ==> forall i :: 0 <= i < |r| ==> (r[i] <==> i == b)
    ensures AtMostOneActive(active) ==> AtMostOneActive(r)
  {
    var first := FirstActive(active);
    var cleared := if first.Some? then active[first.value := false] else active;
    cleared[b := true]
  }

  class Page {
    /** Which mode-selector buttons carry the class `active`, in document order. */
    var selector: seq<bool>
    var alertHidden: bool
    var alert: AlertMarkup
    var resultHidden: bool
    var resultHeader: string
    var resultContent: seq<Node>
    /** Click listeners registered on the result footer's print button. */
    var printListeners: nat
    /** Whether the page has been sent away to the landing site. */
    var navigatedAway: bool

    /** Exactly one mode-selector button carries the class `active`. */
    ghost predicate Valid()
      reads this
    {
      AtMostOneActive(selector) && exists i :: 0 <= i < |selector| && selector[i]
    }

    /** The page as loaded: both dialogs hidden, the given mode button active. */
    constructor (buttons: nat, selected: nat)
      requires selected < buttons
      ensures Valid()
      ensures |selector| == buttons && selector[selected]
      ensures alertHidden && resultHidden && !navigatedAway
      ensures resultContent == [] && printListeners == 0
    {
      var active := seq(buttons, i => i == selected);
      assert active[selected];
      selector := active;
      alertHidden := true;
      alert := AlertMarkup("", []);
      resultHidden := true;
      resultHeader := "";
      resultContent := [];
      printListeners := 0;
      navigatedAway := false;
    }

    /** onModeSwitched: b becomes the active selector button. */
    method OnModeSwitched(b: nat)
      requires Valid() && b < |selector|
      modifies this
      ensures Valid()
      ensures selector == SwitchedTo(old(selector), b)
      ensures forall i :: 0 <= i < |selector| ==> (selector[i] <==> i == b)
      ensures alertHidden == old(alertHidden) && alert == old(alert)
      ensures resultHidden == old(resultHidden) && resultHeader == old(resultHeader)
      ensures resultContent == old(resultContent) && printListeners == old(printListeners)
      ensures navigatedAway == old(navigatedAway)
    {
      var first := FirstActive(selector);
      if first.Some? {
        selector := selector[first.value := false];
      }
      selector := selector[b := true];
      assert selector[b];
    }

    /** showWarning as written: it replaces the alert markup, then looks up a
        print button that markup does not have and calls addEventListener on
        null, which throws. The text is never written and the alert stays as
        hidden or visible as it was. */
    method ShowWarning(text: string) returns (threw: bool)
      requires Valid()
      modifies this
      ensures Valid()
      ensures threw
      ensures text != "" ==> alert.text != text
      ensures alert == WarningMarkup
      ensures alertHidden == old(alertHidden) && selector == old(selector)
      ensures resultHidden == old(resultHidden) && resultHeader == old(resultHeader)
      ensures resultContent == old(resultContent) && printListeners == old(printListeners)
      ensures navigatedAway == old(navigatedAway)
    {
      alert := WarningMarkup;
      var printButton := FindButton(alert.buttons, PrintButton);
      threw := printButton.None?;
    }

    /** showResult: builds the rows of every present block, registers one more
        print listener, sets the header, replaces the content wholesale and
        shows the dialog. */
    method ShowResult(id: CapturedId, isDocumentVerified: bool)
      requires Valid()
      modifies this
      ensures Valid()
      ensures resultContent == ResultContent(id)
      ensures resultHeader == HeaderFor(isDocumentVerified)
      ensures !resultHidden
      ensures printListeners == old(printListeners) + 1
      ensures alertHidden == old(alertHidden) && alert == old(alert)
      ensures selector == old(selector) && navigatedAway == old(navigatedAway)
    {
      var content := BuildResultContent(id);
      printListeners := printListeners + 1;
      resultHeader := HeaderFor(isDocumentVerified);
      resultContent := [];
      resultContent := resultContent + content;
      resultHidden := false;
    }

    /** closeDialog: hides the alert. */
    method CloseDialog()
      requires Valid()
      modifies this
      ensures Valid()
      ensures alertHidden
      ensures alert == old(alert) && selector == old(selector)
      ensures resultHidden == old(resultHidden) && resultHeader == old(resultHeader)
      ensures resultContent == old(resultContent) && printListeners == old(printListeners)
      ensures navigatedAway == old(navigatedAway)
    {
      alertHidden := true;
    }

    /** closeResults: hides the result dialog. */
    method CloseResults()
      requires Valid()
      modifies this
      ensures Valid()
      ensures resultHidden
      ensures alertHidden == old(alertHidden) && alert == old(alert) && selector == old(selector)
      ensures resultHeader == old(resultHeader) && resultContent == old(resultContent)
      ensures printListeners == old(printListeners) && navigatedAway == old(navigatedAway)
    {
      resultHidden := true;
    }

    /** window.location.replace to the landing site. */
    method NavigateAway()
      requires Valid()
      modifies this
      ensures Valid()
      ensures navigatedAway
      ensures alertHidden == old(alertHidden) && alert == old(alert) && selector == old(selector)
      ensures resultHidden == old(resultHidden) && resultHeader == old(resultHeader)
      ensures resultContent == old(resultContent) && printListeners == old(printListeners)
    {
      navigatedAway := true;
    }
  }
}
