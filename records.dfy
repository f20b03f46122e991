/** Wire-format line items as the backend query returns them, and the flat rows the grid shows. */
module Records {

  /** A scalar field value as the backend delivers it (text, dates as text, numbers). */
  datatype Value = Undefined | Null | Text(s: string) | Number(n: int)

  /** A related record reached through a lookup (Opportunity, Product2); only its Name is read. */
  datatype Related = Related(name: Value)

  /**
   * One OpportunityLineItem on the wire. The last three fields stand for the backend fields
   * Product_Details__c, Product_Expiration_Date__c and Warranty_yrs__c.
   */
  datatype WireRecord = WireRecord(
    id: string,
    opportunity: Related,
    product2: Related,
    productDetails: Value,
    productExpirationDate: Value,
    warrantyYears: Value)

  /** The row shown by the grid; `recordId` repeats `id` for selection tracking. */
  datatype Row = Row(
    id: string,
    opportunityName: Value,
    productName: Value,
    productDetails: Value,
    expirationDate: Value,
    warrantyYears: Value,
    recordId: string)

  /** The mapping lambda applied to each wire record. */
  function FlattenRecord(item: WireRecord): Row
  {
    Row(item.id, item.opportunity.name, item.product2.name, item.productDetails,
        item.productExpirationDate, item.warrantyYears, item.id)
  }

  /**
   * The rows built from a fetched list: one per record, in the same order, each carrying
   * the record's Id both as `id` and as `recordId` and its fields under their grid names.
   */
  function Flatten(items: seq<WireRecord>): (rows: seq<Row>)
    ensures |rows| == |items|
    ensures forall i :: 0 <= i < |items| ==>
      rows[i].id == items[i].id && rows[i].recordId == items[i].id
    ensures forall i :: 0 <= i < |items| ==>
      && rows[i].opportunityName == items[i].opportunity.name
      && rows[i].productName == items[i].product2.name
      && rows[i].productDetails == items[i].productDetails
      && rows[i].expirationDate == items[i].productExpirationDate
      && rows[i].warrantyYears == items[i].warrantyYears
  {
    seq(|items|, i requires 0 <= i < |items| => FlattenRecord(items[i]))
  }

  /** Flattening a concatenation flattens each part: the map works record by record. */
  lemma FlattenDistributes(a: seq<WireRecord>, b: seq<WireRecord>)
    ensures Flatten(a + b) == Flatten(a) + Flatten(b)
  {
  }
}
