/**
 * Properties of the whole conversion: the two metadata elements that `add_ns1_children`
 * inserts stay where they are, whatever the later stages do or where they stop.
 */
module PipelineProperties {
  import opened ElementTree
  import opened Ubl
  import opened Rules

  /** `r` has the root label and the number of children of `n`, and the same child `k`. */
  predicate KeepsChild(r: Node, n: Node, k: nat)
  {
    SameLabel(r, n) && |r.children| == |n.children| && k < |n.children| && r.children[k] == n.children[k]
  }

  /** Child `k` of `n` is a leaf not tagged `t`. */
  predicate LeafNotTagged(n: Node, k: nat, t: QName)
  {
    k < |n.children| && n.children[k].children == [] && n.children[k].tag != t
  }

  /** An edit inside an element tagged `t` below the root leaves a leaf not tagged `t` alone. */
  lemma WithinKeepsLeaf(n: Node, p: Path, o: Outcome, k: nat, t: QName)
    requires ValidPath(n, p) && p != [] && At(n, p).tag == t && LeafNotTagged(n, k, t)
    ensures KeepsChild(Within(n, p, o).tree, n, k)
  {
    PutBelowRoot(n, p, o.tree);
    if p[0] == k {
      IntoLeaf(n, p);
    }
  }

  lemma SupplierKeepsLeaf(invoice: Node, kbo: string, k: nat)
    requires LeafNotTagged(invoice, k, PARTY)
    ensures KeepsChild(ConvertSupplierParty(invoice, kbo).tree, invoice, k)
  {
    match FindBelow(invoice, [], ACCOUNTING_SUPPLIER_PARTY)
    case None =>
    case Some(supplier) =>
      match FindBelow(invoice, supplier, PARTY)
      case None =>
      case Some(party) =>
        WithinKeepsLeaf(invoice, party, SupplierPartySteps(At(invoice, party), kbo), k, PARTY);
  }

  lemma CustomerKeepsLeaf(invoice: Node, kbo: string, k: nat)
    requires LeafNotTagged(invoice, k, PARTY)
    ensures KeepsChild(ConvertCustomerParty(invoice, kbo).tree, invoice, k)
  {
    match FindBelow(invoice, [], ACCOUNTING_CUSTOMER_PARTY)
    case None =>
    case Some(customer) =>
      match FindBelow(invoice, customer, PARTY)
      case None =>
      case Some(party) =>
        WithinKeepsLeaf(invoice, party, CustomerPartySteps(At(invoice, party), kbo), k, PARTY);
  }

  lemma PaymentMeansKeepsLeaf(invoice: Node, k: nat)
    requires LeafNotTagged(invoice, k, PAYMENT_MEANS)
    ensures KeepsChild(ConvertPaymentMeans(invoice).tree, invoice, k)
  {
    match FindBelow(invoice, [], PAYMENT_MEANS)
    case None =>
    case Some(means) =>
      WithinKeepsLeaf(invoice, means, PaymentMeansSteps(At(invoice, means)), k, PAYMENT_MEANS);
  }

  lemma TaxTotalKeepsLeaf(invoice: Node, k: nat)
    requires LeafNotTagged(invoice, k, TAX_TOTAL)
    ensures KeepsChild(ConvertTaxTotal(invoice).tree, invoice, k)
  {
    match FindBelow(invoice, [], TAX_TOTAL)
    case None =>
    case Some(total) =>
      WithinKeepsLeaf(invoice, total, TaxTotalSteps(At(invoice, total)), k, TAX_TOTAL);
  }

  lemma InvoiceLineKeepsLeaf(invoice: Node, k: nat)
    requires LeafNotTagged(invoice, k, INVOICE_LINE)
    ensures KeepsChild(ConvertInvoiceLine(invoice).tree, invoice, k)
  {
    match FindBelow(invoice, [], INVOICE_LINE)
    case None =>
    case Some(line) =>
      WithinKeepsLeaf(invoice, line, InvoiceLineSteps(At(invoice, line)), k, INVOICE_LINE);
  }

  /** The two metadata elements of a non-empty invoice, at indexes 1 and 2. */
  predicate HasMetadata(r: Node, invoice: Node)
  {
    invoice.children != [] && SameLabel(r, invoice) && |r.children| == |invoice.children| + 2 &&
    r.children[1] == CustomizationIdElement() && r.children[2] == ProfileIdElement()
  }

  /** `r` keeps children 1 and 2 of `n`, its label and its number of children. */
  predicate KeepsMetadata(r: Node, n: Node)
  {
    KeepsChild(r, n, 1) && KeepsChild(r, n, 2)
  }

  lemma KeepsMetadataThen(r: Node, n: Node, invoice: Node)
    requires HasMetadata(n, invoice) && KeepsMetadata(r, n)
    ensures HasMetadata(r, invoice)
  {
  }

  /** `add_ns1_children` on an invoice with children, whether its tax total stage raises or not. */
  lemma Ns1PlacesMetadata(invoice: Node)
    requires invoice.children != []
    ensures HasMetadata(AddNs1Children(invoice).tree, invoice)
  {
    var i1 := AddProfileId(AddCustomizationId(invoice));
    assert HasMetadata(i1, invoice);
    var i2 := ChangeDocumentCurrencyCode(ChangeInvoiceTypeCode(i1));
    assert HasMetadata(i2, invoice) by {
      var j1 := ChangeInvoiceTypeCode(i1);
      assert j1.children[1] == i1.children[1] && j1.children[2] == i1.children[2];
    }
    TaxTotalKeepsLeaf(i2, 1);
    TaxTotalKeepsLeaf(i2, 2);
  }

  /**
   * `create_invoice_elementtree` on an invoice with children: the customization and
   * profile identifiers are children 1 and 2 of the result, the root keeps its label,
   * and it has two children more, also when a stage raises and the conversion stops.
   */
  lemma CreateInvoicePlacesMetadata(invoice: Node, kbo: string)
    requires invoice.children != []
    ensures HasMetadata(CreateInvoiceElementtree(invoice, kbo).tree, invoice)
  {
    Ns1PlacesMetadata(invoice);
    var o1 := AddNs1Children(invoice);
    if o1.Done? {
      var i1 := o1.tree;
      SupplierKeepsLeaf(i1, kbo, 1);
      SupplierKeepsLeaf(i1, kbo, 2);
      var o2 := ConvertSupplierParty(i1, kbo);
      KeepsMetadataThen(o2.tree, i1, invoice);
      if o2.Done? {
        var i2 := o2.tree;
        CustomerKeepsLeaf(i2, kbo, 1);
        CustomerKeepsLeaf(i2, kbo, 2);
        var o3 := ConvertCustomerParty(i2, kbo);
        KeepsMetadataThen(o3.tree, i2, invoice);
        if o3.Done? {
          var i3 := o3.tree;
          PaymentMeansKeepsLeaf(i3, 1);
          PaymentMeansKeepsLeaf(i3, 2);
          var o4 := ConvertPaymentMeans(i3);
          KeepsMetadataThen(o4.tree, i3, invoice);
          if o4.Done? {
            var i4 := o4.tree;
            TaxTotalKeepsLeaf(i4, 1);
            TaxTotalKeepsLeaf(i4, 2);
            var o5 := ConvertTaxTotal(i4);
            KeepsMetadataThen(o5.tree, i4, invoice);
            if o5.Done? {
              InvoiceLineKeepsLeaf(o5.tree, 1);
              InvoiceLineKeepsLeaf(o5.tree, 2);
              KeepsMetadataThen(ConvertInvoiceLine(o5.tree).tree, o5.tree, invoice);
            }
          }
        }
      }
    }
  }
}
