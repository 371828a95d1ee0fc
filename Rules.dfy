/**
 * What each function of the converter does to an element tree, as functions on tree
 * values. Each function takes the element the Python function receives and gives back
 * that element after the Python function's edits; where the Python code raises, the
 * result is `Raised` with the tree as it was left at that moment.
 */
module Rules {
  import opened ElementTree
  import opened Ubl

  /** Why a step of the conversion stops. */
  datatype Error =
    | Missing(tag: QName)            // a lookup found nothing and its result was used
    | MissingAttribute(name: string) // `attrib.pop` of an absent key (KeyError)
    | NotAChild(tag: QName)          // `remove` of an element that is not a direct child (ValueError)
    | Cyclic                         // an element appended into its own subtree

  /** The tree after a step, and the error the step raised, if any. */
  datatype Outcome = Done(tree: Node) | Raised(tree: Node, error: Error) {
    predicate IsFailure() { Raised? }

    function PropagateFailure(): Outcome
      requires Raised?
    {
      this
    }

    function Extract(): Node
      requires Done?
    {
      tree
    }

    function Err(): Option<Error>
    {
      if Raised? then Some(error) else None
    }
  }

  /** A lookup whose result is used: a path, or the error that using `None` raises. */
  datatype Lookup = Found(path: Path) | Lost(tree: Node, error: Error) {
    predicate IsFailure() { Lost? }

    function PropagateFailure(): Outcome
      requires Lost?
    {
      Raised(tree, error)
    }

    function Extract(): Path
      requires Found?
    {
      path
    }
  }

  /** `find('.//' + t)` from the element at `base`, whose result is then dereferenced. */
  function Need(n: Node, base: Path, t: QName): (r: Lookup)
    requires ValidPath(n, base)
    ensures r.Found? ==> ValidPath(n, r.path) && At(n, r.path).tag == t
  {
    match FindBelow(n, base, t)
    case Some(p) => Found(p)
    case None => Lost(n, Missing(t))
  }

  /** `find('.//' + t)` whose result is then removed from `n`: it must be a direct child. */
  function DirectChild(n: Node, t: QName): (r: Lookup)
    ensures r.Found? ==> |r.path| == 1 && r.path[0] < |n.children| && n.children[r.path[0]].tag == t
  {
    match Find(n, t)
    case None => Lost(n, Missing(t))
    case Some(p) => if |p| == 1 then Found(p) else Lost(n, NotAChild(t))
  }

  /** The outcome of a step on the element at `p`, seen from the root `n`. */
  function Within(n: Node, p: Path, o: Outcome): Outcome
    requires ValidPath(n, p)
  {
    o.(tree := Put(n, p, o.tree))
  }

  function SetAt(n: Node, p: Path, key: string, value: string): (r: Node)
    requires ValidPath(n, p)
    ensures ShapeOf(r) == ShapeOf(n)
  {
    Put(n, p, SetAttr(At(n, p), key, value))
  }

  /** `attrib.pop(key)` on the element at `p`. */
  function PopAt(n: Node, p: Path, key: string): (o: Outcome)
    requires ValidPath(n, p)
    ensures o.Done? ==> ShapeOf(o.tree) == ShapeOf(n)
  {
    if key in At(n, p).attrib then Done(Put(n, p, PopAttr(At(n, p), key)))
    else Raised(n, MissingAttribute(key))
  }

  // ---------------------------------------------------------------------------
  // Generic helpers (lines 4-24).
  // ---------------------------------------------------------------------------

  /** `add_elementtree_as_child`: `parent.append(child)`. */
  function AddElementtreeAsChild(parent: Node, child: Node): (r: Node)
    ensures r.tag == parent.tag && r.attrib == parent.attrib && r.text == parent.text
    ensures |r.children| == |parent.children| + 1
    ensures r.children[|parent.children|] == child
    ensures r.children[..|parent.children|] == parent.children
  {
    AppendChild(parent, child)
  }

  /** The index of the first child with tag `t`, scanning direct children only. */
  function FirstChild(cs: seq<Node>, t: QName): (r: Option<nat>)
    ensures r.None? ==> forall j :: 0 <= j < |cs| ==> cs[j].tag != t
    ensures r.Some? ==> r.value < |cs| && cs[r.value].tag == t
    ensures r.Some? ==> forall j :: 0 <= j < r.value ==> cs[j].tag != t
  {
    if cs == [] then None
    else if cs[0].tag == t then Some(0)
    else match FirstChild(cs[1..], t)
      case Some(k) => Some(k + 1)
      case None => None
  }

  /** `remove_elementtree_as_child_by_tag`: removes the first direct child with tag `t`. */
  function RemoveElementtreeAsChildByTag(parent: Node, t: QName): (r: Node)
    ensures SameLabel(r, parent) && multiset(r.children) <= multiset(parent.children)
    ensures |parent.children| <= |r.children| + 1
  {
    match FirstChild(parent.children, t)
    case Some(k) =>
      assert parent.children == parent.children[..k] + [parent.children[k]] + parent.children[k + 1..];
      RemoveChild(parent, k)
    case None => parent
  }

  /**
   * The children left by `for child in parent: if child.tag == t: parent.remove(child)`.
   * Removing the current child shifts the next one into its place, and the iterator
   * then moves past it: the child right after a removed one is never examined.
   */
  function RemoveWhileIterating(cs: seq<Node>, t: QName): (r: seq<Node>)
    ensures |r| <= |cs|
  {
    if cs == [] then []
    else if cs[0].tag != t then [cs[0]] + RemoveWhileIterating(cs[1..], t)
    else if |cs| == 1 then []
    else [cs[1]] + RemoveWhileIterating(cs[2..], t)
  }

  /** The loop only ever removes children. */
  lemma {:induction false} RemoveWhileIteratingRemovesOnly(cs: seq<Node>, t: QName)
    ensures multiset(RemoveWhileIterating(cs, t)) <= multiset(cs)
    decreases |cs|
  {
    if cs == [] {
    } else if cs[0].tag != t {
      assert cs == [cs[0]] + cs[1..];
      RemoveWhileIteratingRemovesOnly(cs[1..], t);
    } else if |cs| > 1 {
      assert cs == [cs[0], cs[1]] + cs[2..];
      RemoveWhileIteratingRemovesOnly(cs[2..], t);
    }
  }

  /** Whether `cs[j]` is the first of `cs` with tag `t`. */
  predicate FirstWithTag(cs: seq<Node>, t: QName, j: nat)
    requires j < |cs|
  {
    cs[j].tag == t && forall i :: 0 <= i < j ==> cs[i].tag != t
  }

  /** Sets an attribute on the first direct child with tag `t`, if there is one. */
  function SetOnFirstChild(n: Node, t: QName, key: string, value: string): (r: Node)
    ensures SameLabel(r, n) && |r.children| == |n.children|
    ensures forall j :: 0 <= j < |n.children| ==>
      r.children[j] == if FirstWithTag(n.children, t, j) then SetAttr(n.children[j], key, value) else n.children[j]
  {
    match FirstChild(n.children, t)
    case Some(k) => n.(children := n.children[k := SetAttr(n.children[k], key, value)])
    case None => n
  }

  // ---------------------------------------------------------------------------
  // Metadata (lines 43-54 and 212-266).
  // ---------------------------------------------------------------------------

  function CustomizationIdElement(): Node
  {
    TextElement(CUSTOMIZATION_ID, Some(CUSTOMIZATION))
  }

  function ProfileIdElement(): Node
  {
    TextElement(PROFILE_ID, Some(PROFILE))
  }

  /** `add_customization_id`: inserts the customization identifier at index 1. */
  function AddCustomizationId(invoice: Node): (r: Node)
    ensures var k := if invoice.children == [] then 0 else 1;
      SameLabel(r, invoice) && |r.children| == |invoice.children| + 1 &&
      r.children[k] == CustomizationIdElement() && r.children[..k] + r.children[k + 1..] == invoice.children
  {
    InsertChild(invoice, 1, CustomizationIdElement())
  }

  /** `add_profile_id`: inserts the profile identifier at index 2. */
  function AddProfileId(invoice: Node): (r: Node)
    ensures var k := if |invoice.children| < 2 then |invoice.children| else 2;
      SameLabel(r, invoice) && |r.children| == |invoice.children| + 1 &&
      r.children[k] == ProfileIdElement() && r.children[..k] + r.children[k + 1..] == invoice.children
  {
    InsertChild(invoice, 2, ProfileIdElement())
  }

  /** `change_invoice_type_code`. */
  function ChangeInvoiceTypeCode(invoice: Node): (r: Node)
    ensures SameLabel(r, invoice) && |r.children| == |invoice.children|
    ensures forall j :: 0 <= j < |invoice.children| ==>
      r.children[j] == if FirstWithTag(invoice.children, INVOICE_TYPE_CODE, j)
                       then SetAttr(invoice.children[j], "listID", UNCL1001) else invoice.children[j]
  {
    SetOnFirstChild(invoice, INVOICE_TYPE_CODE, "listID", UNCL1001)
  }

  /** `change_document_currency_code`. */
  function ChangeDocumentCurrencyCode(invoice: Node): (r: Node)
    ensures SameLabel(r, invoice) && |r.children| == |invoice.children|
    ensures forall j :: 0 <= j < |invoice.children| ==>
      r.children[j] == if FirstWithTag(invoice.children, DOCUMENT_CURRENCY_CODE, j)
                       then SetAttr(invoice.children[j], "listID", ISO4217) else invoice.children[j]
  {
    SetOnFirstChild(invoice, DOCUMENT_CURRENCY_CODE, "listID", ISO4217)
  }

  /** `add_ns1_children`. */
  function AddNs1Children(invoice: Node): (o: Outcome)
    ensures SameLabel(o.tree, invoice) && |o.tree.children| == |invoice.children| + 2
  {
    var i1 := AddProfileId(AddCustomizationId(invoice));
    var i2 := ChangeDocumentCurrencyCode(ChangeInvoiceTypeCode(i1));
    ConvertTaxTotal(i2)
  }

  // ---------------------------------------------------------------------------
  // Parties (lines 57-92 and 269-425).
  // ---------------------------------------------------------------------------

  /** `find_party`. */
  function FindParty(n: Node): (r: Option<Path>)
    ensures r.None? <==> forall q :: ValidPath(n, q) && q != [] ==> At(n, q).tag != PARTY
    ensures r.Some? ==> r.value != [] && ValidPath(n, r.value) && At(n, r.value).tag == PARTY
    ensures r.Some? ==> forall q :: ValidPath(n, q) && q != [] && At(n, q).tag == PARTY ==>
                                 q == r.value || Precedes(r.value, q)
  {
    FindFirst(n, PARTY);
    Find(n, PARTY)
  }

  function EndpointIdElement(kbo: string): Node
  {
    Node(ENDPOINT_ID, map["schemeID" := ENTERPRISE_NUMBER_SCHEME], Some(kbo), [])
  }

  /** `add_endpoint_id`: the endpoint identifier becomes the first child. */
  function AddEndpointId(party: Node, kbo: string): (r: Node)
    ensures SameLabel(r, party) && |r.children| == |party.children| + 1
    ensures r.children[0] == EndpointIdElement(kbo) && r.children[1..] == party.children
  {
    InsertChild(party, 0, EndpointIdElement(kbo))
  }

  /** `remove_website_uri`. */
  function RemoveWebsiteUri(party: Node): (r: Node)
    ensures SameLabel(r, party) && multiset(r.children) <= multiset(party.children)
  {
    RemoveWhileIteratingRemovesOnly(party.children, WEBSITE_URI);
    party.(children := RemoveWhileIterating(party.children, WEBSITE_URI))
  }

  /** `change_identification_code_list_id`: iterating over a missing postal address raises. */
  function ChangeIdentificationCodeListId(party: Node): (o: Outcome)
    ensures o.Raised? <==> Find(party, POSTAL_ADDRESS).None?
    ensures o.Raised? ==> o == Raised(party, Missing(POSTAL_ADDRESS))
    ensures o.Done? ==> ShapeOf(o.tree) == ShapeOf(party)
    ensures SameLabel(o.tree, party)
  {
    var address :- Need(party, [], POSTAL_ADDRESS);
    match FindBelow(party, address, IDENTIFICATION_CODE)
    case Some(code) => Done(SetAt(party, code, "listID", ISO3166_ALPHA2))
    case None => Done(party)
  }

  /** `remove_scheme_id_of_id`. */
  function RemoveSchemeIdOfId(party: Node): (o: Outcome)
    ensures Find(party, PARTY_TAX_SCHEME).None? ==> o == Done(party)
    ensures o.Done? ==> ShapeOf(o.tree) == ShapeOf(party)
    ensures SameLabel(o.tree, party)
  {
    match FindBelow(party, [], PARTY_TAX_SCHEME)
    case None => Done(party)
    case Some(partyTaxScheme) =>
      var scheme :- Need(party, partyTaxScheme, TAX_SCHEME);
      var id :- Need(party, scheme, ID);
      var p1 :- PopAt(party, id, "schemeID");
      PopAt(p1, id, "schemeAgencyID")
  }

  /** `electronic_mail_add_languageId`. */
  function ElectronicMailAddLanguageId(party: Node): (o: Outcome)
    ensures o.Done? ==> ShapeOf(o.tree) == ShapeOf(party)
    ensures o.Raised? ==> o.tree == party
    ensures SameLabel(o.tree, party)
  {
    var contact :- Need(party, [], CONTACT);
    var mail :- Need(party, contact, ELECTRONIC_MAIL);
    Done(SetAt(party, mail, "languageID", LANGUAGE))
  }

  /** `change_party_legal_entity`. */
  function ChangePartyLegalEntity(party: Node): (o: Outcome)
    ensures o.Done? ==> ShapeOf(o.tree) == ShapeOf(party)
    ensures o.Raised? ==> o.tree == party
    ensures SameLabel(o.tree, party)
  {
    var entity :- Need(party, [], PARTY_LEGAL_ENTITY);
    var country :- Need(party, entity, COUNTRY);
    var code :- Need(party, country, IDENTIFICATION_CODE);
    Done(SetAt(party, code, "listID", ISO3166_ALPHA2))
  }

  /**
   * `add_party_legal_entity`. With a party tax scheme the source appends the party to
   * its own tax scheme, a cycle no finite tree has: that branch is a failure here, after
   * the `append(None)` errors that come first.
   */
  function AddPartyLegalEntity(party: Node, endpointId: string): (o: Outcome)
    ensures Find(party, PARTY_TAX_SCHEME).Some? ==> o.Raised?
    ensures Find(party, PARTY_TAX_SCHEME).None? ==> o == AddPartyLegalEntityWithEndpointId(party, endpointId)
    ensures o.Raised? ==> o.tree == party
    ensures SameLabel(o.tree, party)
  {
    match FindBelow(party, [], PARTY_TAX_SCHEME)
    case Some(partyTaxScheme) =>
      var name :- Need(party, partyTaxScheme, REGISTRATION_NAME);
      var company :- Need(party, partyTaxScheme, COMPANY_ID);
      Raised(party, Cyclic)
    case None => AddPartyLegalEntityWithEndpointId(party, endpointId)
  }

  function LegalEntityElement(name: Option<string>, companyId: string): Node
  {
    Node(PARTY_LEGAL_ENTITY, map[], None,
         [TextElement(REGISTRATION_NAME, name), TextElement(COMPANY_ID, Some(companyId))])
  }

  /** `add_party_legal_entity_with_endpointid`: inserts at `len(children) - 1`. */
  function AddPartyLegalEntityWithEndpointId(party: Node, endpointId: string): (o: Outcome)
    ensures o.Raised? ==> o.tree == party
    ensures SameLabel(o.tree, party)
  {
    var partyName :- Need(party, [], PARTY_NAME);
    var name :- Need(party, partyName, NAME);
    Done(InsertChild(party, |party.children| - 1, LegalEntityElement(At(party, name).text, endpointId)))
  }

  /** The edits `convert_supplier_party` makes to the supplier's party. */
  function SupplierPartySteps(party: Node, kbo: string): (o: Outcome)
    ensures SameLabel(o.tree, party)
  {
    var p1 := RemoveWebsiteUri(AddEndpointId(party, kbo));
    var p2 :- ChangeIdentificationCodeListId(p1);
    var p3 :- RemoveSchemeIdOfId(p2);
    var p4 :- ChangePartyLegalEntity(p3);
    ElectronicMailAddLanguageId(p4)
  }

  /** The edits `convert_customer_party` makes to the customer's party. */
  function CustomerPartySteps(party: Node, kbo: string): (o: Outcome)
    ensures SameLabel(o.tree, party)
  {
    var p1 := AddEndpointId(party, kbo);
    var p2 :- ChangeIdentificationCodeListId(p1);
    var p3 :- RemoveSchemeIdOfId(p2);
    var p4 :- AddPartyLegalEntity(p3, kbo);
    ElectronicMailAddLanguageId(p4)
  }

  /** `convert_supplier_party`. */
  function ConvertSupplierParty(invoice: Node, kbo: string): (o: Outcome)
    ensures Find(invoice, ACCOUNTING_SUPPLIER_PARTY).None? ==> o == Raised(invoice, Missing(ACCOUNTING_SUPPLIER_PARTY))
    ensures SameLabel(o.tree, invoice) && |o.tree.children| == |invoice.children|
  {
    var supplier :- Need(invoice, [], ACCOUNTING_SUPPLIER_PARTY);
    var party :- Need(invoice, supplier, PARTY);
    Within(invoice, party, SupplierPartySteps(At(invoice, party), kbo))
  }

  /** `convert_customer_party`. */
  function ConvertCustomerParty(invoice: Node, kbo: string): (o: Outcome)
    ensures Find(invoice, ACCOUNTING_CUSTOMER_PARTY).None? ==> o == Raised(invoice, Missing(ACCOUNTING_CUSTOMER_PARTY))
    ensures SameLabel(o.tree, invoice) && |o.tree.children| == |invoice.children|
  {
    var customer :- Need(invoice, [], ACCOUNTING_CUSTOMER_PARTY);
    var party :- Need(invoice, customer, PARTY);
    Within(invoice, party, CustomerPartySteps(At(invoice, party), kbo))
  }

  // ---------------------------------------------------------------------------
  // Payment means (lines 95-123).
  // ---------------------------------------------------------------------------

  /** `id.attrib.pop('schemeName')` followed by `id.set('schemeID', scheme)`. */
  function RenameScheme(n: Node, id: Path, scheme: string): (o: Outcome)
    requires ValidPath(n, id)
    ensures o.Done? ==> ShapeOf(o.tree) == ShapeOf(n)
  {
    var n1 :- PopAt(n, id, "schemeName");
    Done(SetAt(n1, id, "schemeID", scheme))
  }

  /** The edits `convert_payment_means` makes inside the payment means. */
  function PaymentMeansSteps(means: Node): (o: Outcome)
    ensures o.Done? ==> ShapeOf(o.tree) == ShapeOf(means)
  {
    var code :- Need(means, [], PAYMENT_MEANS_CODE);
    var m1 := SetAt(means, code, "listID", UNCL4461);
    var account :- Need(m1, [], PAYEE_FINANCIAL_ACCOUNT);
    var iban :- Need(m1, account, ID);
    var m2 :- RenameScheme(m1, iban, IBAN);
    RenameInstitutionScheme(m2, account)
  }

  /** Lines 113-122: the financial institution's identifier, below the account at `account`. */
  function RenameInstitutionScheme(means: Node, account: Path): (o: Outcome)
    requires ValidPath(means, account)
    ensures o.Done? ==> ShapeOf(o.tree) == ShapeOf(means)
  {
    var branch :- Need(means, account, FINANCIAL_INSTITUTION_BRANCH);
    var institution :- Need(means, branch, FINANCIAL_INSTITUTION);
    var bic :- Need(means, institution, ID);
    RenameScheme(means, bic, BIC)
  }

  /** `convert_payment_means`. */
  function ConvertPaymentMeans(invoice: Node): (o: Outcome)
    ensures Find(invoice, PAYMENT_MEANS).None? ==> o == Raised(invoice, Missing(PAYMENT_MEANS))
    ensures SameLabel(o.tree, invoice) && |o.tree.children| == |invoice.children|
  {
    var means :- Need(invoice, [], PAYMENT_MEANS);
    Within(invoice, means, PaymentMeansSteps(At(invoice, means)))
  }

  // ---------------------------------------------------------------------------
  // Tax total (lines 126-154) and the tax category rewrite it shares with the
  // invoice line (lines 140-153 and 179-192).
  // ---------------------------------------------------------------------------

  /** `id.attrib.clear(); id.set('schemeID', 'UNCL5305'); id.text = 'S'`. */
  function StandardRated(id: Node): Node
  {
    WithText(SetAttr(ClearAttrs(id), "schemeID", UNCL5305), Some(STANDARD_RATE))
  }

  /** The edits made inside a tax category: its ID, then its tax scheme's ID. */
  function RewriteTaxCategory(category: Node): (o: Outcome)
    ensures o.Done? ==> ShapeOf(o.tree) == ShapeOf(category)
  {
    var id :- Need(category, [], ID);
    var c1 := Put(category, id, StandardRated(At(category, id)));
    var scheme :- Need(c1, [], TAX_SCHEME);
    var schemeId :- Need(c1, scheme, ID);
    Done(Put(c1, schemeId, ClearAttrs(At(c1, schemeId))))
  }

  /** The Percent removal loop of lines 136-138, on the tax subtotal. */
  function RemovePercent(subtotal: Node): (r: Node)
    ensures SameLabel(r, subtotal) && multiset(r.children) <= multiset(subtotal.children)
  {
    RemoveWhileIteratingRemovesOnly(subtotal.children, PERCENT);
    subtotal.(children := RemoveWhileIterating(subtotal.children, PERCENT))
  }

  /** The edits `convert_tax_total` makes inside the tax total. */
  function TaxTotalSteps(total: Node): (o: Outcome)
    ensures Find(total, TAX_SUBTOTAL).None? ==> o == Raised(total, Missing(TAX_SUBTOTAL))
    ensures SameLabel(o.tree, total) && |o.tree.children| == |total.children|
  {
    var subtotal :- Need(total, [], TAX_SUBTOTAL);
    var t1 := Put(total, subtotal, RemovePercent(At(total, subtotal)));
    var category :- Need(t1, subtotal, TAX_CATEGORY);
    Within(t1, category, RewriteTaxCategory(At(t1, category)))
  }

  /** `convert_tax_total`. */
  function ConvertTaxTotal(invoice: Node): (o: Outcome)
    ensures Find(invoice, TAX_TOTAL).None? ==> o == Raised(invoice, Missing(TAX_TOTAL))
    ensures SameLabel(o.tree, invoice) && |o.tree.children| == |invoice.children|
  {
    var total :- Need(invoice, [], TAX_TOTAL);
    Within(invoice, total, TaxTotalSteps(At(invoice, total)))
  }

  // ---------------------------------------------------------------------------
  // Invoice line (lines 157-209).
  // ---------------------------------------------------------------------------

  /** The new item: a name, then a classified tax category holding `categoryChildren`. */
  function ClassifiedItem(categoryChildren: seq<Node>): Node
  {
    Node(ITEM, map[], None,
         [TextElement(NAME, Some(ITEM_NAME)), Node(CLASSIFIED_TAX_CATEGORY, map[], None, categoryChildren)])
  }

  /** The edits `convert_invoice_line` makes inside the invoice line. */
  function InvoiceLineSteps(line: Node): (o: Outcome)
    ensures Find(line, ITEM).None? ==> o == Raised(line, Missing(ITEM))
    ensures Find(line, ITEM).Some? && |Find(line, ITEM).value| != 1 ==> o == Raised(line, NotAChild(ITEM))
  {
    var item :- DirectChild(line, ITEM);
    LineWithoutItem(RemoveChild(line, item[0]))
  }

  /** Lines 170-208: the quantity's unit, then the line's tax category. */
  function LineWithoutItem(line: Node): (o: Outcome)
    ensures Find(line, INVOICED_QUANTITY).None? ==> o == Raised(line, Missing(INVOICED_QUANTITY))
    ensures SameLabel(o.tree, line)
  {
    var quantity :- Need(line, [], INVOICED_QUANTITY);
    LineTaxCategory(QuantityUnits(line, quantity))
  }

  /** Lines 172-173: the unit code of the invoiced quantity. */
  function QuantityUnits(line: Node, quantity: Path): (r: Node)
    requires ValidPath(line, quantity)
    ensures ShapeOf(r) == ShapeOf(line)
  {
    SetAt(SetAt(line, quantity, "unitCode", UNIT_ONE), quantity, "unitCodeListID", UNECE_REC20)
  }

  /** Lines 175-208: the line's tax category is rewritten, then moved into a new item. */
  function LineTaxCategory(line: Node): (o: Outcome)
    ensures Find(line, TAX_TOTAL).None? ==> o == Raised(line, Missing(TAX_TOTAL))
    ensures SameLabel(o.tree, line)
  {
    var total :- Need(line, [], TAX_TOTAL);
    var subtotal :- Need(line, total, TAX_SUBTOTAL);
    var category :- Need(line, subtotal, TAX_CATEGORY);
    var l2 :- Within(line, category, RewriteTaxCategory(At(line, category)));
    MoveCategoryIntoItem(l2, total, category)
  }

  /**
   * Lines 194-208: the new item goes in at index 3 with the tax category's children,
   * then the tax total is removed (it must be a direct child) and a price must exist.
   */
  function MoveCategoryIntoItem(line: Node, total: Path, category: Path): (o: Outcome)
    requires ValidPath(line, total) && ValidPath(line, category)
    ensures |total| != 1 ==> o.Raised? && o.error == NotAChild(TAX_TOTAL)
    ensures SameLabel(o.tree, line)
    ensures o.Done? ==> |o.tree.children| == |line.children|
  {
    var position := InsertIndex(3, |line.children|);
    var l1 := InsertChild(line, 3, ClassifiedItem(At(line, category).children));
    if |total| != 1 then Raised(l1, NotAChild(TAX_TOTAL))
    else
      var l2 := RemoveChild(l1, if position <= total[0] then total[0] + 1 else total[0]);
      var price :- Need(l2, [], PRICE);
      Done(l2)
  }

  /** `convert_invoice_line`. */
  function ConvertInvoiceLine(invoice: Node): (o: Outcome)
    ensures Find(invoice, INVOICE_LINE).None? ==> o == Raised(invoice, Missing(INVOICE_LINE))
    ensures SameLabel(o.tree, invoice) && |o.tree.children| == |invoice.children|
  {
    var line :- Need(invoice, [], INVOICE_LINE);
    Within(invoice, line, InvoiceLineSteps(At(invoice, line)))
  }

  // ---------------------------------------------------------------------------
  // The pipeline (lines 27-40).
  // ---------------------------------------------------------------------------

  /** `create_invoice_elementtree`: the stages in order; the first error stops it. */
  function CreateInvoiceElementtree(invoice: Node, kbo: string): (o: Outcome)
    ensures SameLabel(o.tree, invoice) && |o.tree.children| == |invoice.children| + 2
  {
    var i1 :- AddNs1Children(invoice);
    var i2 :- ConvertSupplierParty(i1, kbo);
    var i3 :- ConvertCustomerParty(i2, kbo);
    var i4 :- ConvertPaymentMeans(i3);
    var i5 :- ConvertTaxTotal(i4);
    ConvertInvoiceLine(i5)
  }
}
