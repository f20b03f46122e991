/** Turning the grid's draft edits into per-record field-update payloads. */
module Payloads {
  import opened Outcomes
  import opened Records

  /** Backend API names of the fields an update may carry. */
  const IdField: string := "Id"
  const ProductDetailsField: string := "Product_Details__c"
  const ExpirationDateField: string := "Product_Expiration_Date__c"
  const WarrantyYearsField: string := "Warranty_yrs__c"

  /**
   * The unsaved edits of one row: its id and, for each editable column, `Some(v)` when the
   * draft owns that property (even if v is undefined) and `None` when it does not.
   */
  datatype Draft = Draft(
    id: string,
    productDetails: Option<Value>,
    expirationDate: Option<Value>,
    warrantyYears: Option<Value>)

  /** A record input for the record-update call: `{ fields }`. */
  datatype RecordInput = RecordInput(fields: map<string, Value>)

  function PutIfPresent(fields: map<string, Value>, name: string, v: Option<Value>): map<string, Value>
  {
    if v.Some? then fields[name := v.value] else fields
  }

  /**
   * The payload for one draft: always the Id field holding the draft's id, plus each edited
   * column under its backend name with the draft's value, and nothing else.
   */
  function PayloadFor(d: Draft): (r: RecordInput)
    ensures IdField in r.fields && r.fields[IdField] == Text(d.id)
    ensures ProductDetailsField in r.fields <==> d.productDetails.Some?
    ensures d.productDetails.Some? ==> r.fields[ProductDetailsField] == d.productDetails.value
    ensures ExpirationDateField in r.fields <==> d.expirationDate.Some?
    ensures d.expirationDate.Some? ==> r.fields[ExpirationDateField] == d.expirationDate.value
    ensures WarrantyYearsField in r.fields <==> d.warrantyYears.Some?
    ensures d.warrantyYears.Some? ==> r.fields[WarrantyYearsField] == d.warrantyYears.value
    ensures r.fields.Keys <= {IdField, ProductDetailsField, ExpirationDateField, WarrantyYearsField}
  {
    var fields := map[IdField := Text(d.id)];
    var fields := PutIfPresent(fields, ProductDetailsField, d.productDetails);
    var fields := PutIfPresent(fields, ExpirationDateField, d.expirationDate);
    var fields := PutIfPresent(fields, WarrantyYearsField, d.warrantyYears);
    RecordInput(fields)
  }

  function FieldOf(fields: map<string, Value>, name: string): Option<Value>
  {
    if name in fields then Some(fields[name]) else None
  }

  /** Reads a draft back from a payload; fails when the Id field is missing or not text. */
  function DraftOf(r: RecordInput): Option<Draft>
  {
    if IdField in r.fields && r.fields[IdField].Text? then
      Some(Draft(r.fields[IdField].s,
                 FieldOf(r.fields, ProductDetailsField),
                 FieldOf(r.fields, ExpirationDateField),
                 FieldOf(r.fields, WarrantyYearsField)))
    else None
  }

  /** A payload loses nothing of its draft: reading it back gives the draft again. */
  lemma PayloadRoundTrip(d: Draft)
    ensures DraftOf(PayloadFor(d)) == Some(d)
  {
  }

  /** The forEach loop of the save handler: one payload per draft, in draft order. */
  method BuildPayloads(drafts: seq<Draft>) returns (records: seq<RecordInput>)
    ensures |records| == |drafts|
    ensures forall i :: 0 <= i < |drafts| ==> records[i] == PayloadFor(drafts[i])
  {
    records := [];
    for k := 0 to |drafts|
      invariant |records| == k
      invariant forall i :: 0 <= i < k ==> records[i] == PayloadFor(drafts[i])
    {
      records := records + [PayloadFor(drafts[k])];
    }
  }

  /** The batch of updates succeeds only when every single update is accepted. */
  predicate AllAccepted(records: seq<RecordInput>, accepts: RecordInput -> bool)
  {
    forall i :: 0 <= i < |records| ==> accepts(records[i])
  }

  /** One rejected update is enough to fail the whole batch. */
  lemma OneRejectionFailsBatch(records: seq<RecordInput>, accepts: RecordInput -> bool, i: int)
    requires 0 <= i < |records| && !accepts(records[i])
    ensures !AllAccepted(records, accepts)
  {
  }
}
