/**
 * The converter as it runs: each method edits the one document in place through the
 * element API, in the order the Python function does, and stops at the point where
 * the Python function raises. A method given an element reference `at` is proved to
 * leave the document as the matching function of `Rules` says: the element at `at`
 * becomes that function's result tree, and the error returned is that function's.
 */
module Convert {
  import opened ElementTree
  import opened Ubl
  import Rules

  // ---------------------------------------------------------------------------
  // Generic helpers (lines 4-24) and the two loops over an element's children.
  // ---------------------------------------------------------------------------

  /** `add_elementtree_as_child`. */
  method AddElementtreeAsChild(doc: Document, parent: Path, child: Node)
    requires ValidPath(doc.root, parent)
    modifies doc
    ensures doc.root == Put(old(doc.root), parent, Rules.AddElementtreeAsChild(old(At(doc.root, parent)), child))
  {
    doc.Append(parent, child);
  }

  /** `remove_elementtree_as_child_by_tag`: the loop stops at the first match. */
  method RemoveElementtreeAsChildByTag(doc: Document, parent: Path, t: QName)
    requires ValidPath(doc.root, parent)
    modifies doc
    ensures doc.root == Put(old(doc.root), parent, Rules.RemoveElementtreeAsChildByTag(old(At(doc.root, parent)), t))
  {
    PutAt(doc.root, parent);
    var cs := At(doc.root, parent).children;
    var i := 0;
    while i < |cs|
      invariant i <= |cs| && doc.root == old(doc.root)
      invariant forall j :: 0 <= j < i ==> cs[j].tag != t
    {
      if cs[i].tag == t {
        doc.Remove(parent, i);
        return;
      }
      i := i + 1;
    }
  }

  /** `for child in parent: if child.tag == t: child.set(key, value); break`. */
  method SetOnFirstChild(doc: Document, parent: Path, t: QName, key: string, value: string)
    requires ValidPath(doc.root, parent)
    modifies doc
    ensures doc.root == Put(old(doc.root), parent, Rules.SetOnFirstChild(old(At(doc.root, parent)), t, key, value))
  {
    ghost var n := doc.root;
    var e := At(doc.root, parent);
    PutAt(n, parent);
    var i := 0;
    while i < |e.children|
      invariant i <= |e.children| && doc.root == n
      invariant forall j :: 0 <= j < i ==> e.children[j].tag != t
    {
      if e.children[i].tag == t {
        SetFirst(e, t, i, key, value);
        EditWithin(n, parent, e, [i], SetAttr(e.children[i], key, value));
        doc.Set(parent + [i], key, value);
        return;
      }
      i := i + 1;
    }
    assert Rules.FirstChild(e.children, t).None?;
  }

  /** Setting on the child at `i`, the first tagged `t`, is what `SetOnFirstChild` does. */
  lemma SetFirst(e: Node, t: QName, i: nat, key: string, value: string)
    requires i < |e.children| && e.children[i].tag == t
    requires forall j :: 0 <= j < i ==> e.children[j].tag != t
    ensures ValidPath(e, [i]) && At(e, [i]) == e.children[i]
    ensures Put(e, [i], SetAttr(e.children[i], key, value)) == Rules.SetOnFirstChild(e, t, key, value)
  {
    assert ShapeOf(e).kids[i] == ShapeOf(e.children[i]);
    FirstChildAt(e.children, t, i);
    assert Put(e.children[i], [], SetAttr(e.children[i], key, value)) == SetAttr(e.children[i], key, value);
  }

  /** The scan's index is the one `FirstChild` names. */
  lemma FirstChildAt(cs: seq<Node>, t: QName, i: nat)
    requires i < |cs| && cs[i].tag == t
    requires forall j :: 0 <= j < i ==> cs[j].tag != t
    ensures Rules.FirstChild(cs, t) == Some(i)
  {
  }

  /**
   * `for child in parent: if child.tag == t: parent.remove(child)`. The iterator holds
   * an index: a removal moves the next child under it, and the iterator then steps
   * past that child; after the last child is removed the index is past the end.
   */
  method RemoveWhileIterating(doc: Document, parent: Path, t: QName)
    requires ValidPath(doc.root, parent)
    modifies doc
    ensures var e := old(At(doc.root, parent));
      doc.root == Put(old(doc.root), parent, e.(children := Rules.RemoveWhileIterating(e.children, t)))
  {
    ghost var n, e := doc.root, At(doc.root, parent);
    PutAt(n, parent);
    ghost var cs := e.children;
    var i := 0;
    while i < |At(doc.root, parent).children|
      invariant doc.root == Put(n, parent, e.(children := cs))
      invariant i <= |cs|
      invariant Rules.RemoveWhileIterating(e.children, t) == cs[..i] + Rules.RemoveWhileIterating(cs[i..], t)
      decreases |cs| - i
    {
      IterationStep(cs, i, t);
      if At(doc.root, parent).children[i].tag == t {
        ghost var rest := cs[..i] + cs[i + 1..];
        assert RemoveChild(e.(children := cs), i) == e.(children := rest);
        PutPut(n, parent, e.(children := cs), e.(children := rest));
        doc.Remove(parent, i);
        cs := rest;
        if i < |At(doc.root, parent).children| {
          i := i + 1;
        }
      } else {
        i := i + 1;
      }
    }
    assert i == |cs| && cs[..i] == cs && cs[i..] == [];
    assert Rules.RemoveWhileIterating(e.children, t) == cs;
  }

  /** What one pass of the loop above does to the children still to be visited. */
  lemma IterationStep(cs: seq<Node>, i: nat, t: QName)
    requires i < |cs|
    ensures var r := cs[..i] + Rules.RemoveWhileIterating(cs[i..], t);
      var rest := cs[..i] + cs[i + 1..];
      (cs[i].tag != t ==> r == cs[..i + 1] + Rules.RemoveWhileIterating(cs[i + 1..], t)) &&
      (cs[i].tag == t && i < |rest| ==> r == rest[..i + 1] + Rules.RemoveWhileIterating(rest[i + 1..], t)) &&
      (cs[i].tag == t && i == |rest| ==> r == rest[..i] + Rules.RemoveWhileIterating(rest[i..], t))
  {
    var rest := cs[..i] + cs[i + 1..];
    assert cs[i..][1..] == cs[i + 1..];
    if cs[i].tag != t {
      assert cs[..i + 1] == cs[..i] + [cs[i]];
    } else if i < |rest| {
      assert cs[i..][2..] == cs[i + 2..];
      assert rest[..i + 1] == cs[..i] + [cs[i + 1]] && rest[i + 1..] == cs[i + 2..];
    } else {
      assert rest[..i] == cs[..i] && rest[i..] == [];
    }
  }

  // ---------------------------------------------------------------------------
  // Metadata (lines 43-54 and 212-266), on the invoice at the document's root.
  // ---------------------------------------------------------------------------

  /** `add_customization_id`. */
  method AddCustomizationId(doc: Document)
    modifies doc
    ensures doc.root == Rules.AddCustomizationId(old(doc.root))
  {
    doc.Insert([], 1, Rules.CustomizationIdElement());
  }

  /** `add_profile_id`. */
  method AddProfileId(doc: Document)
    modifies doc
    ensures doc.root == Rules.AddProfileId(old(doc.root))
  {
    doc.Insert([], 2, Rules.ProfileIdElement());
  }

  /** `change_invoice_type_code`. */
  method ChangeInvoiceTypeCode(doc: Document)
    modifies doc
    ensures doc.root == Rules.ChangeInvoiceTypeCode(old(doc.root))
  {
    SetOnFirstChild(doc, [], INVOICE_TYPE_CODE, "listID", UNCL1001);
  }

  /** `change_document_currency_code`. */
  method ChangeDocumentCurrencyCode(doc: Document)
    modifies doc
    ensures doc.root == Rules.ChangeDocumentCurrencyCode(old(doc.root))
  {
    SetOnFirstChild(doc, [], DOCUMENT_CURRENCY_CODE, "listID", ISO4217);
  }

  /** `add_ns1_children`. */
  method AddNs1Children(doc: Document) returns (err: Option<Rules.Error>)
    modifies doc
    ensures var o := Rules.AddNs1Children(old(doc.root));
      doc.root == o.tree && err == o.Err()
  {
    AddCustomizationId(doc);
    AddProfileId(doc);
    ChangeInvoiceTypeCode(doc);
    ChangeDocumentCurrencyCode(doc);
    err := ConvertTaxTotal(doc);
  }

  // ---------------------------------------------------------------------------
  // Party edits (lines 280-425), on the party at `party`.
  // ---------------------------------------------------------------------------

  /** `add_endpoint_id`. */
  method AddEndpointId(doc: Document, party: Path, kbo: string)
    requires ValidPath(doc.root, party)
    modifies doc
    ensures doc.root == Put(old(doc.root), party, Rules.AddEndpointId(old(At(doc.root, party)), kbo))
  {
    doc.Insert(party, 0, Rules.EndpointIdElement(kbo));
  }

  /** `remove_website_uri`. */
  method RemoveWebsiteUri(doc: Document, party: Path)
    requires ValidPath(doc.root, party)
    modifies doc
    ensures doc.root == Put(old(doc.root), party, Rules.RemoveWebsiteUri(old(At(doc.root, party))))
  {
    RemoveWhileIterating(doc, party, WEBSITE_URI);
  }

  /** `change_identification_code_list_id`; iterating over a missing address raises. */
  method ChangeIdentificationCodeListId(doc: Document, party: Path) returns (err: Option<Rules.Error>)
    requires ValidPath(doc.root, party)
    modifies doc
    ensures var o := Rules.ChangeIdentificationCodeListId(old(At(doc.root, party)));
      doc.root == Put(old(doc.root), party, o.tree) && err == o.Err()
  {
    ghost var n := doc.root;
    var e := At(doc.root, party);
    PutAt(n, party);
    var address := Rules.Need(e, [], POSTAL_ADDRESS);
    if address.Lost? {
      return Some(address.error);
    }
    var code := FindBelow(e, address.path, IDENTIFICATION_CODE);
    if code.Some? {
      EditWithin(n, party, e, code.value, SetAttr(At(e, code.value), "listID", ISO3166_ALPHA2));
      doc.Set(party + code.value, "listID", ISO3166_ALPHA2);
    }
    err := None;
  }

  /** `remove_scheme_id_of_id`. */
  method RemoveSchemeIdOfId(doc: Document, party: Path) returns (err: Option<Rules.Error>)
    requires ValidPath(doc.root, party)
    modifies doc
    ensures var o := Rules.RemoveSchemeIdOfId(old(At(doc.root, party)));
      doc.root == Put(old(doc.root), party, o.tree) && err == o.Err()
  {
    ghost var n := doc.root;
    var e := At(doc.root, party);
    PutAt(n, party);
    var partyTaxScheme := FindBelow(e, [], PARTY_TAX_SCHEME);
    if partyTaxScheme.None? {
      return None;
    }
    var scheme := Rules.Need(e, partyTaxScheme.value, TAX_SCHEME);
    if scheme.Lost? {
      return Some(scheme.error);
    }
    var id := Rules.Need(e, scheme.path, ID);
    if id.Lost? {
      return Some(id.error);
    }
    err := PopAt(doc, party, id.path, "schemeID");
    if err.Some? {
      return;
    }
    ghost var e1 := Rules.PopAt(e, id.path, "schemeID").tree;
    err := PopAt(doc, party, id.path, "schemeAgencyID");
    PutPut(n, party, e1, Rules.PopAt(e1, id.path, "schemeAgencyID").tree);
  }

  /** `attrib.pop(key)` on the element at `q` inside the element at `at`. */
  method PopAt(doc: Document, at: Path, q: Path, key: string) returns (err: Option<Rules.Error>)
    requires ValidPath(doc.root, at) && ValidPath(At(doc.root, at), q)
    modifies doc
    ensures var o := Rules.PopAt(old(At(doc.root, at)), q, key);
      doc.root == Put(old(doc.root), at, o.tree) && err == o.Err()
  {
    ghost var n := doc.root;
    ghost var e := At(doc.root, at);
    PutAt(n, at);
    EditWithin(n, at, e, q, PopAttr(At(e, q), key));
    var ok := doc.Pop(at + q, key);
    if !ok {
      return Some(Rules.MissingAttribute(key));
    }
    err := None;
  }

  /** `electronic_mail_add_languageId`. */
  method ElectronicMailAddLanguageId(doc: Document, party: Path) returns (err: Option<Rules.Error>)
    requires ValidPath(doc.root, party)
    modifies doc
    ensures var o := Rules.ElectronicMailAddLanguageId(old(At(doc.root, party)));
      doc.root == Put(old(doc.root), party, o.tree) && err == o.Err()
  {
    ghost var n := doc.root;
    var e := At(doc.root, party);
    PutAt(n, party);
    var contact := Rules.Need(e, [], CONTACT);
    if contact.Lost? {
      return Some(contact.error);
    }
    var mail := Rules.Need(e, contact.path, ELECTRONIC_MAIL);
    if mail.Lost? {
      return Some(mail.error);
    }
    EditWithin(n, party, e, mail.path, SetAttr(At(e, mail.path), "languageID", LANGUAGE));
    doc.Set(party + mail.path, "languageID", LANGUAGE);
    err := None;
  }

  /** `change_party_legal_entity`. */
  method ChangePartyLegalEntity(doc: Document, party: Path) returns (err: Option<Rules.Error>)
    requires ValidPath(doc.root, party)
    modifies doc
    ensures var o := Rules.ChangePartyLegalEntity(old(At(doc.root, party)));
      doc.root == Put(old(doc.root), party, o.tree) && err == o.Err()
  {
    ghost var n := doc.root;
    var e := At(doc.root, party);
    PutAt(n, party);
    var entity := Rules.Need(e, [], PARTY_LEGAL_ENTITY);
    if entity.Lost? {
      return Some(entity.error);
    }
    var country := Rules.Need(e, entity.path, COUNTRY);
    if country.Lost? {
      return Some(country.error);
    }
    var code := Rules.Need(e, country.path, IDENTIFICATION_CODE);
    if code.Lost? {
      return Some(code.error);
    }
    EditWithin(n, party, e, code.path, SetAttr(At(e, code.path), "listID", ISO3166_ALPHA2));
    doc.Set(party + code.path, "listID", ISO3166_ALPHA2);
    err := None;
  }

  /**
   * `add_party_legal_entity`. With a party tax scheme the source appends the party to
   * a descendant of itself; that is reported as `Cyclic` and nothing is edited.
   */
  method AddPartyLegalEntity(doc: Document, party: Path, endpointId: string) returns (err: Option<Rules.Error>)
    requires ValidPath(doc.root, party)
    modifies doc
    ensures var o := Rules.AddPartyLegalEntity(old(At(doc.root, party)), endpointId);
      doc.root == Put(old(doc.root), party, o.tree) && err == o.Err()
  {
    var e := At(doc.root, party);
    PutAt(doc.root, party);
    var partyTaxScheme := FindBelow(e, [], PARTY_TAX_SCHEME);
    if partyTaxScheme.Some? {
      var name := Rules.Need(e, partyTaxScheme.value, REGISTRATION_NAME);
      if name.Lost? {
        return Some(name.error);
      }
      var company := Rules.Need(e, partyTaxScheme.value, COMPANY_ID);
      if company.Lost? {
        return Some(company.error);
      }
      return Some(Rules.Cyclic);
    }
    err := AddPartyLegalEntityWithEndpointId(doc, party, endpointId);
  }

  /** `add_party_legal_entity_with_endpointid`. */
  method AddPartyLegalEntityWithEndpointId(doc: Document, party: Path, endpointId: string)
    returns (err: Option<Rules.Error>)
    requires ValidPath(doc.root, party)
    modifies doc
    ensures var o := Rules.AddPartyLegalEntityWithEndpointId(old(At(doc.root, party)), endpointId);
      doc.root == Put(old(doc.root), party, o.tree) && err == o.Err()
  {
    var e := At(doc.root, party);
    PutAt(doc.root, party);
    var partyName := Rules.Need(e, [], PARTY_NAME);
    if partyName.Lost? {
      return Some(partyName.error);
    }
    var name := Rules.Need(e, partyName.path, NAME);
    if name.Lost? {
      return Some(name.error);
    }
    var entity := Rules.LegalEntityElement(At(e, name.path).text, endpointId);
    doc.Insert(party, |e.children| - 1, entity);
    err := None;
  }

  // ---------------------------------------------------------------------------
  // The two parties (lines 57-92 and 269-277).
  // ---------------------------------------------------------------------------

  /** `find_party` below the element at `base`, as a path from the root. */
  method FindParty(doc: Document, base: Path) returns (r: Rules.Lookup)
    requires ValidPath(doc.root, base)
    ensures r == Rules.Need(doc.root, base, PARTY)
  {
    var found := Rules.FindParty(At(doc.root, base));
    if found.None? {
      return Rules.Lost(doc.root, Rules.Missing(PARTY));
    }
    return Rules.Found(base + found.value);
  }

  /** `convert_supplier_party`. */
  method ConvertSupplierParty(doc: Document, kbo: string) returns (err: Option<Rules.Error>)
    modifies doc
    ensures var o := Rules.ConvertSupplierParty(old(doc.root), kbo);
      doc.root == o.tree && err == o.Err()
  {
    ghost var n := doc.root;
    var supplier := Rules.Need(doc.root, [], ACCOUNTING_SUPPLIER_PARTY);
    if supplier.Lost? {
      return Some(supplier.error);
    }
    var found := FindParty(doc, supplier.path);
    if found.Lost? {
      return Some(found.error);
    }
    var party := found.path;
    ghost var e0 := At(n, party);
    ghost var p1 := Rules.AddEndpointId(e0, kbo);
    AddEndpointId(doc, party, kbo);
    ghost var p2 := Rules.RemoveWebsiteUri(p1);
    RemoveWebsiteUri(doc, party);
    PutPut(n, party, p1, p2);
    err := ChangeIdentificationCodeListId(doc, party);
    ghost var o3 := Rules.ChangeIdentificationCodeListId(p2);
    PutPut(n, party, p2, o3.tree);
    if err.Some? {
      return;
    }
    err := RemoveSchemeIdOfId(doc, party);
    ghost var o4 := Rules.RemoveSchemeIdOfId(o3.tree);
    PutPut(n, party, o3.tree, o4.tree);
    if err.Some? {
      return;
    }
    err := ChangePartyLegalEntity(doc, party);
    ghost var o5 := Rules.ChangePartyLegalEntity(o4.tree);
    PutPut(n, party, o4.tree, o5.tree);
    if err.Some? {
      return;
    }
    err := ElectronicMailAddLanguageId(doc, party);
    PutPut(n, party, o5.tree, Rules.ElectronicMailAddLanguageId(o5.tree).tree);
  }

  /** `convert_customer_party`. */
  method ConvertCustomerParty(doc: Document, kbo: string) returns (err: Option<Rules.Error>)
    modifies doc
    ensures var o := Rules.ConvertCustomerParty(old(doc.root), kbo);
      doc.root == o.tree && err == o.Err()
  {
    ghost var n := doc.root;
    var customer := Rules.Need(doc.root, [], ACCOUNTING_CUSTOMER_PARTY);
    if customer.Lost? {
      return Some(customer.error);
    }
    var found := FindParty(doc, customer.path);
    if found.Lost? {
      return Some(found.error);
    }
    var party := found.path;
    ghost var e0 := At(n, party);
    ghost var p1 := Rules.AddEndpointId(e0, kbo);
    AddEndpointId(doc, party, kbo);
    err := ChangeIdentificationCodeListId(doc, party);
    ghost var o2 := Rules.ChangeIdentificationCodeListId(p1);
    PutPut(n, party, p1, o2.tree);
    if err.Some? {
      return;
    }
    err := RemoveSchemeIdOfId(doc, party);
    ghost var o3 := Rules.RemoveSchemeIdOfId(o2.tree);
    PutPut(n, party, o2.tree, o3.tree);
    if err.Some? {
      return;
    }
    err := AddPartyLegalEntity(doc, party, kbo);
    ghost var o4 := Rules.AddPartyLegalEntity(o3.tree, kbo);
    PutPut(n, party, o3.tree, o4.tree);
    if err.Some? {
      return;
    }
    err := ElectronicMailAddLanguageId(doc, party);
    PutPut(n, party, o4.tree, Rules.ElectronicMailAddLanguageId(o4.tree).tree);
  }

  // ---------------------------------------------------------------------------
  // Payment means (lines 95-123).
  // ---------------------------------------------------------------------------

  /** `id.attrib.pop('schemeName'); id.set('schemeID', scheme)` for `id` at `at + id`. */
  method RenameScheme(doc: Document, at: Path, id: Path, scheme: string) returns (err: Option<Rules.Error>)
    requires ValidPath(doc.root, at) && ValidPath(At(doc.root, at), id)
    modifies doc
    ensures var o := Rules.RenameScheme(old(At(doc.root, at)), id, scheme);
      doc.root == Put(old(doc.root), at, o.tree) && err == o.Err()
  {
    ghost var n := doc.root;
    var e := At(doc.root, at);
    PutAt(n, at);
    err := PopAt(doc, at, id, "schemeName");
    if err.Some? {
      return;
    }
    ghost var e1 := Put(e, id, PopAttr(At(e, id), "schemeName"));
    PutPut(n, at, e, e1);
    EditWithin(n, at, e1, id, SetAttr(At(e1, id), "schemeID", scheme));
    doc.Set(at + id, "schemeID", scheme);
    err := None;
  }

  /** Lines 103-122, inside the payment means at `means`. */
  method PaymentMeansSteps(doc: Document, means: Path) returns (err: Option<Rules.Error>)
    requires ValidPath(doc.root, means)
    modifies doc
    ensures var o := Rules.PaymentMeansSteps(old(At(doc.root, means)));
      doc.root == Put(old(doc.root), means, o.tree) && err == o.Err()
  {
    ghost var n := doc.root;
    var e := At(doc.root, means);
    PutAt(n, means);
    var code := Rules.Need(e, [], PAYMENT_MEANS_CODE);
    if code.Lost? {
      return Some(code.error);
    }
    EditWithin(n, means, e, code.path, SetAttr(At(e, code.path), "listID", UNCL4461));
    doc.Set(means + code.path, "listID", UNCL4461);
    var m1 := At(doc.root, means);
    assert m1 == Rules.SetAt(e, code.path, "listID", UNCL4461);
    var account := Rules.Need(m1, [], PAYEE_FINANCIAL_ACCOUNT);
    if account.Lost? {
      return Some(account.error);
    }
    var iban := Rules.Need(m1, account.path, ID);
    if iban.Lost? {
      return Some(iban.error);
    }
    err := RenameScheme(doc, means, iban.path, IBAN);
    ghost var o2 := Rules.RenameScheme(m1, iban.path, IBAN);
    PutPut(n, means, m1, o2.tree);
    if err.Some? {
      return;
    }
    err := RenameInstitutionScheme(doc, means, account.path);
    PutPut(n, means, o2.tree, Rules.RenameInstitutionScheme(o2.tree, account.path).tree);
  }

  /** Lines 113-122: the financial institution's identifier, below the account. */
  method RenameInstitutionScheme(doc: Document, means: Path, account: Path) returns (err: Option<Rules.Error>)
    requires ValidPath(doc.root, means) && ValidPath(At(doc.root, means), account)
    modifies doc
    ensures var o := Rules.RenameInstitutionScheme(old(At(doc.root, means)), account);
      doc.root == Put(old(doc.root), means, o.tree) && err == o.Err()
  {
    var e := At(doc.root, means);
    PutAt(doc.root, means);
    var branch := Rules.Need(e, account, FINANCIAL_INSTITUTION_BRANCH);
    if branch.Lost? {
      return Some(branch.error);
    }
    var institution := Rules.Need(e, branch.path, FINANCIAL_INSTITUTION);
    if institution.Lost? {
      return Some(institution.error);
    }
    var bic := Rules.Need(e, institution.path, ID);
    if bic.Lost? {
      return Some(bic.error);
    }
    err := RenameScheme(doc, means, bic.path, BIC);
  }

  /** `convert_payment_means`. */
  method ConvertPaymentMeans(doc: Document) returns (err: Option<Rules.Error>)
    modifies doc
    ensures var o := Rules.ConvertPaymentMeans(old(doc.root));
      doc.root == o.tree && err == o.Err()
  {
    var means := Rules.Need(doc.root, [], PAYMENT_MEANS);
    if means.Lost? {
      return Some(means.error);
    }
    err := PaymentMeansSteps(doc, means.path);
  }

  // ---------------------------------------------------------------------------
  // Tax total (lines 126-154) and the tax category rewrite.
  // ---------------------------------------------------------------------------

  /** Lines 142-153 (and 181-192), inside the tax category at `category`. */
  method RewriteTaxCategory(doc: Document, category: Path) returns (err: Option<Rules.Error>)
    requires ValidPath(doc.root, category)
    modifies doc
    ensures var o := Rules.RewriteTaxCategory(old(At(doc.root, category)));
      doc.root == Put(old(doc.root), category, o.tree) && err == o.Err()
  {
    ghost var n := doc.root;
    var c := At(doc.root, category);
    PutAt(n, category);
    var id := Rules.Need(c, [], ID);
    if id.Lost? {
      return Some(id.error);
    }
    var i := id.path;
    ghost var x0 := At(c, i);
    EditWithin(n, category, c, i, ClearAttrs(x0));
    doc.Clear(category + i);
    ghost var c1 := Put(c, i, ClearAttrs(x0));
    EditWithin(n, category, c1, i, SetAttr(ClearAttrs(x0), "schemeID", UNCL5305));
    doc.Set(category + i, "schemeID", UNCL5305);
    ghost var c2 := Put(c1, i, SetAttr(ClearAttrs(x0), "schemeID", UNCL5305));
    EditWithin(n, category, c2, i, Rules.StandardRated(x0));
    doc.SetText(category + i, Some(STANDARD_RATE));
    PutPut(c, i, ClearAttrs(x0), SetAttr(ClearAttrs(x0), "schemeID", UNCL5305));
    PutPut(c, i, SetAttr(ClearAttrs(x0), "schemeID", UNCL5305), Rules.StandardRated(x0));
    var c3 := At(doc.root, category);
    assert c3 == Put(c, i, Rules.StandardRated(x0));
    var scheme := Rules.Need(c3, [], TAX_SCHEME);
    if scheme.Lost? {
      return Some(scheme.error);
    }
    var schemeId := Rules.Need(c3, scheme.path, ID);
    if schemeId.Lost? {
      return Some(schemeId.error);
    }
    EditWithin(n, category, c3, schemeId.path, ClearAttrs(At(c3, schemeId.path)));
    doc.Clear(category + schemeId.path);
    err := None;
  }

  /** Lines 136-138: the Percent loop over the tax subtotal. */
  method RemovePercent(doc: Document, subtotal: Path)
    requires ValidPath(doc.root, subtotal)
    modifies doc
    ensures doc.root == Put(old(doc.root), subtotal, Rules.RemovePercent(old(At(doc.root, subtotal))))
  {
    RemoveWhileIterating(doc, subtotal, PERCENT);
  }

  /** Lines 134-153, inside the tax total at `total`. */
  method TaxTotalSteps(doc: Document, total: Path) returns (err: Option<Rules.Error>)
    requires ValidPath(doc.root, total)
    modifies doc
    ensures var o := Rules.TaxTotalSteps(old(At(doc.root, total)));
      doc.root == Put(old(doc.root), total, o.tree) && err == o.Err()
  {
    ghost var n := doc.root;
    var e := At(doc.root, total);
    PutAt(n, total);
    var subtotal := Rules.Need(e, [], TAX_SUBTOTAL);
    if subtotal.Lost? {
      return Some(subtotal.error);
    }
    EditWithin(n, total, e, subtotal.path, Rules.RemovePercent(At(e, subtotal.path)));
    RemovePercent(doc, total + subtotal.path);
    var t1 := At(doc.root, total);
    var category := Rules.Need(t1, subtotal.path, TAX_CATEGORY);
    if category.Lost? {
      return Some(category.error);
    }
    ghost var o := Rules.RewriteTaxCategory(At(t1, category.path));
    EditWithin(n, total, t1, category.path, o.tree);
    err := RewriteTaxCategory(doc, total + category.path);
  }

  /** `convert_tax_total`. */
  method ConvertTaxTotal(doc: Document) returns (err: Option<Rules.Error>)
    modifies doc
    ensures var o := Rules.ConvertTaxTotal(old(doc.root));
      doc.root == o.tree && err == o.Err()
  {
    var total := Rules.Need(doc.root, [], TAX_TOTAL);
    if total.Lost? {
      return Some(total.error);
    }
    err := TaxTotalSteps(doc, total.path);
  }

  // ---------------------------------------------------------------------------
  // Invoice line (lines 157-209).
  // ---------------------------------------------------------------------------

  /** Lines 166-208, inside the invoice line at `line`. */
  method InvoiceLineSteps(doc: Document, line: Path) returns (err: Option<Rules.Error>)
    requires ValidPath(doc.root, line)
    modifies doc
    ensures var o := Rules.InvoiceLineSteps(old(At(doc.root, line)));
      doc.root == Put(old(doc.root), line, o.tree) && err == o.Err()
  {
    ghost var n := doc.root;
    var e := At(doc.root, line);
    PutAt(n, line);
    var item := Rules.DirectChild(e, ITEM);
    if item.Lost? {
      return Some(item.error);
    }
    ghost var l0 := RemoveChild(e, item.path[0]);
    doc.Remove(line, item.path[0]);
    err := LineWithoutItem(doc, line);
    PutPut(n, line, l0, Rules.LineWithoutItem(l0).tree);
  }

  /** Lines 170-208. */
  method LineWithoutItem(doc: Document, line: Path) returns (err: Option<Rules.Error>)
    requires ValidPath(doc.root, line)
    modifies doc
    ensures var o := Rules.LineWithoutItem(old(At(doc.root, line)));
      doc.root == Put(old(doc.root), line, o.tree) && err == o.Err()
  {
    ghost var n := doc.root;
    var e := At(doc.root, line);
    PutAt(n, line);
    var quantity := Rules.Need(e, [], INVOICED_QUANTITY);
    if quantity.Lost? {
      return Some(quantity.error);
    }
    ghost var l1 := Rules.QuantityUnits(e, quantity.path);
    QuantityUnits(doc, line, quantity.path);
    err := LineTaxCategory(doc, line);
    PutPut(n, line, l1, Rules.LineTaxCategory(l1).tree);
  }

  /** Lines 172-173. */
  method QuantityUnits(doc: Document, line: Path, quantity: Path)
    requires ValidPath(doc.root, line) && ValidPath(At(doc.root, line), quantity)
    modifies doc
    ensures doc.root == Put(old(doc.root), line, Rules.QuantityUnits(old(At(doc.root, line)), quantity))
  {
    ghost var n := doc.root;
    ghost var e := At(doc.root, line);
    PutAt(n, line);
    EditWithin(n, line, e, quantity, SetAttr(At(e, quantity), "unitCode", UNIT_ONE));
    doc.Set(line + quantity, "unitCode", UNIT_ONE);
    ghost var e1 := Rules.SetAt(e, quantity, "unitCode", UNIT_ONE);
    EditWithin(n, line, e1, quantity, SetAttr(At(e1, quantity), "unitCodeListID", UNECE_REC20));
    doc.Set(line + quantity, "unitCodeListID", UNECE_REC20);
  }

  /** Lines 175-208. */
  method LineTaxCategory(doc: Document, line: Path) returns (err: Option<Rules.Error>)
    requires ValidPath(doc.root, line)
    modifies doc
    ensures var o := Rules.LineTaxCategory(old(At(doc.root, line)));
      doc.root == Put(old(doc.root), line, o.tree) && err == o.Err()
  {
    ghost var n := doc.root;
    var e := At(doc.root, line);
    PutAt(n, line);
    var total := Rules.Need(e, [], TAX_TOTAL);
    if total.Lost? {
      return Some(total.error);
    }
    var subtotal := Rules.Need(e, total.path, TAX_SUBTOTAL);
    if subtotal.Lost? {
      return Some(subtotal.error);
    }
    var category := Rules.Need(e, subtotal.path, TAX_CATEGORY);
    if category.Lost? {
      return Some(category.error);
    }
    ghost var o := Rules.RewriteTaxCategory(At(e, category.path));
    EditWithin(n, line, e, category.path, o.tree);
    err := RewriteTaxCategory(doc, line + category.path);
    if err.Some? {
      return;
    }
    ghost var l2 := Put(e, category.path, o.tree);
    assert ShapeOf(l2) == ShapeOf(e);
    err := MoveCategoryIntoItem(doc, line, total.path, category.path);
    PutPut(n, line, l2, Rules.MoveCategoryIntoItem(l2, total.path, category.path).tree);
  }

  /**
   * Lines 194-208: the new item with the tax category's children goes in, the tax total
   * is removed from the line (it must be a direct child) and the price is looked up.
   */
  method MoveCategoryIntoItem(doc: Document, line: Path, total: Path, category: Path) returns (err: Option<Rules.Error>)
    requires ValidPath(doc.root, line)
    requires ValidPath(At(doc.root, line), total) && ValidPath(At(doc.root, line), category)
    modifies doc
    ensures var o := Rules.MoveCategoryIntoItem(old(At(doc.root, line)), total, category);
      doc.root == Put(old(doc.root), line, o.tree) && err == o.Err()
  {
    ghost var n := doc.root;
    var l := At(doc.root, line);
    var position := InsertIndex(3, |l.children|);
    AddClassifiedItem(doc, line, At(l, category).children);
    if |total| != 1 {
      return Some(Rules.NotAChild(TAX_TOTAL));
    }
    ghost var l1 := InsertChild(l, 3, Rules.ClassifiedItem(At(l, category).children));
    var index := if position <= total[0] then total[0] + 1 else total[0];
    assert ShapeOf(l).kids[total[0]] == ShapeOf(l.children[total[0]]);
    PutPut(n, line, l1, RemoveChild(l1, index));
    doc.Remove(line, index);
    var price := Rules.Need(At(doc.root, line), [], PRICE);
    if price.Lost? {
      return Some(price.error);
    }
    err := None;
  }

  /**
   * Lines 194-202: a new item goes in at index 3, a name and a classified tax category
   * are appended to it, and each of `kids` is appended to the classified tax category.
   * (`kids` are the tax category's children, which the insertion does not change.)
   */
  method AddClassifiedItem(doc: Document, line: Path, kids: seq<Node>)
    requires ValidPath(doc.root, line)
    modifies doc
    ensures doc.root == Put(old(doc.root), line, InsertChild(old(At(doc.root, line)), 3, Rules.ClassifiedItem(kids)))
  {
    ghost var n := doc.root;
    var l := At(doc.root, line);
    PutAt(n, line);
    var position := InsertIndex(3, |l.children|);
    doc.Insert(line, 3, Element(ITEM));
    var name := TextElement(NAME, Some(ITEM_NAME));
    ghost var item1 := AppendChild(Element(ITEM), name);
    AppendToInserted(n, line, l, Element(ITEM), name);
    doc.Append(line + [position], name);
    AppendToInserted(n, line, l, item1, Element(CLASSIFIED_TAX_CATEGORY));
    doc.Append(line + [position], Element(CLASSIFIED_TAX_CATEGORY));
    EmptyClassifiedItem();
    FillClassified(n, line, l, kids);
    AppendAll(doc, line + [position, 1], kids);
  }

  /** Lines 201-202: `for child in kids: parent.append(child)`. */
  method AppendAll(doc: Document, parent: Path, kids: seq<Node>)
    requires ValidPath(doc.root, parent)
    modifies doc
    ensures var e := old(At(doc.root, parent));
      doc.root == Put(old(doc.root), parent, e.(children := e.children + kids))
  {
    ghost var n, e := doc.root, At(doc.root, parent);
    PutAt(n, parent);
    assert e.children + kids[..0] == e.children;
    var j := 0;
    while j < |kids|
      invariant j <= |kids|
      invariant doc.root == Put(n, parent, e.(children := e.children + kids[..j]))
    {
      ghost var before := e.(children := e.children + kids[..j]);
      assert e.children + kids[..j + 1] == e.children + kids[..j] + [kids[j]];
      PutPut(n, parent, before, AppendChild(before, kids[j]));
      doc.Append(parent, kids[j]);
      j := j + 1;
    }
    assert kids[..j] == kids;
  }

  /** The item before the loop: its name, then an empty classified tax category. */
  lemma EmptyClassifiedItem()
    ensures var item := AppendChild(Element(ITEM), TextElement(NAME, Some(ITEM_NAME)));
      AppendChild(item, Element(CLASSIFIED_TAX_CATEGORY)) == Rules.ClassifiedItem([])
  {
    assert [] + [TextElement(NAME, Some(ITEM_NAME))] + [Element(CLASSIFIED_TAX_CATEGORY)] ==
      [TextElement(NAME, Some(ITEM_NAME)), Node(CLASSIFIED_TAX_CATEGORY, map[], None, [])];
  }

  /** An `append` to the child that `insert(3, x)` placed into the element at `line`. */
  lemma AppendToInserted(n: Node, line: Path, l: Node, x: Node, y: Node)
    requires ValidPath(n, line)
    ensures var k := InsertIndex(3, |l.children|);
      var m := Put(n, line, InsertChild(l, 3, x));
      ValidPath(m, line + [k]) && At(m, line + [k]) == x &&
      Put(m, line + [k], AppendChild(x, y)) == Put(n, line, InsertChild(l, 3, AppendChild(x, y)))
  {
    var k := InsertIndex(3, |l.children|);
    PutInserted(l, 3, x, AppendChild(x, y));
    EditWithin(n, line, InsertChild(l, 3, x), [k], AppendChild(x, y));
  }

  /** The empty classified tax category of the inserted item, filled with `kids`. */
  lemma FillClassified(n: Node, line: Path, l: Node, kids: seq<Node>)
    requires ValidPath(n, line)
    ensures var k := InsertIndex(3, |l.children|);
      var m := Put(n, line, InsertChild(l, 3, Rules.ClassifiedItem([])));
      ValidPath(m, line + [k, 1]) && At(m, line + [k, 1]) == Element(CLASSIFIED_TAX_CATEGORY) &&
      Put(m, line + [k, 1], Element(CLASSIFIED_TAX_CATEGORY).(children := [] + kids)) ==
      Put(n, line, InsertChild(l, 3, Rules.ClassifiedItem(kids)))
  {
    var k := InsertIndex(3, |l.children|);
    var item := Rules.ClassifiedItem([]);
    var m := InsertChild(l, 3, item);
    var filled := Node(CLASSIFIED_TAX_CATEGORY, map[], None, kids);
    PutInserted(l, 3, item, Rules.ClassifiedItem(kids));
    assert ShapeOf(item).kids[1] == ShapeOf(item.children[1]);
    assert [k] + [1] == [k, 1];
    AtConcat(m, [k], [1]);
    PutConcat(m, [k], [1], filled);
    assert [] + kids == kids;
    assert Put(item, [1], filled) == Rules.ClassifiedItem(kids);
    EditWithin(n, line, m, [k, 1], filled);
  }

  /** `convert_invoice_line`. */
  method ConvertInvoiceLine(doc: Document) returns (err: Option<Rules.Error>)
    modifies doc
    ensures var o := Rules.ConvertInvoiceLine(old(doc.root));
      doc.root == o.tree && err == o.Err()
  {
    var line := Rules.Need(doc.root, [], INVOICE_LINE);
    if line.Lost? {
      return Some(line.error);
    }
    err := InvoiceLineSteps(doc, line.path);
  }

  // ---------------------------------------------------------------------------
  // The pipeline (lines 27-40).
  // ---------------------------------------------------------------------------

  /** `create_invoice_elementtree`: the document after every stage, or after the one that raised. */
  method CreateInvoiceElementtree(doc: Document, kbo: string) returns (err: Option<Rules.Error>)
    modifies doc
    ensures var o := Rules.CreateInvoiceElementtree(old(doc.root), kbo);
      doc.root == o.tree && err == o.Err()
  {
    err := AddNs1Children(doc);
    if err.Some? {
      return;
    }
    err := ConvertSupplierParty(doc, kbo);
    if err.Some? {
      return;
    }
    err := ConvertCustomerParty(doc, kbo);
    if err.Some? {
      return;
    }
    err := ConvertPaymentMeans(doc);
    if err.Some? {
      return;
    }
    err := ConvertTaxTotal(doc);
    if err.Some? {
      return;
    }
    err := ConvertInvoiceLine(doc);
  }
}
