/**
 * Properties of the conversion rules: what the removal loops leave behind, where the
 * metadata and the endpoint identifier end up, which elements each party edit touches,
 * and what the payment means edits require and produce.
 */
module Properties {
  import opened ElementTree
  import opened Ubl
  import opened Rules

  // ---------------------------------------------------------------------------
  // Removing children while iterating over them (lines 136-138 and 354-356).
  // ---------------------------------------------------------------------------

  /** The children without those tagged `t`: what removing every match would leave. */
  function Without(cs: seq<Node>, t: QName): (r: seq<Node>)
    ensures forall j :: 0 <= j < |r| ==> r[j].tag != t
    ensures |r| <= |cs|
  {
    if cs == [] then []
    else if cs[0].tag == t then Without(cs[1..], t)
    else [cs[0]] + Without(cs[1..], t)
  }

  /** Some child tagged `t` is directly followed by another one. */
  predicate AdjacentMatches(cs: seq<Node>, t: QName)
  {
    exists j :: 0 <= j < |cs| - 1 && cs[j].tag == t && cs[j + 1].tag == t
  }

  lemma AdjacentCons(cs: seq<Node>, t: QName)
    requires cs != []
    ensures AdjacentMatches(cs, t) <==>
      (|cs| >= 2 && cs[0].tag == t && cs[1].tag == t) || AdjacentMatches(cs[1..], t)
  {
    if AdjacentMatches(cs, t) {
      var j :| 0 <= j < |cs| - 1 && cs[j].tag == t && cs[j + 1].tag == t;
      if j > 0 {
        assert cs[1..][j - 1] == cs[j] && cs[1..][j] == cs[j + 1];
      }
    }
    if AdjacentMatches(cs[1..], t) {
      var j :| 0 <= j < |cs[1..]| - 1 && cs[1..][j].tag == t && cs[1..][j + 1].tag == t;
      assert cs[j + 1] == cs[1..][j] && cs[j + 2] == cs[1..][j + 1];
    }
  }

  /** The loop only ever removes children tagged `t`: every other child stays, in order. */
  lemma {:induction false} RemoveWhileIteratingKeepsOthers(cs: seq<Node>, t: QName)
    ensures Without(RemoveWhileIterating(cs, t), t) == Without(cs, t)
    decreases |cs|
  {
    if cs == [] {
    } else if cs[0].tag != t {
      RemoveWhileIteratingKeepsOthers(cs[1..], t);
      assert ([cs[0]] + RemoveWhileIterating(cs[1..], t))[1..] == RemoveWhileIterating(cs[1..], t);
    } else if |cs| == 1 {
    } else {
      RemoveWhileIteratingKeepsOthers(cs[2..], t);
      assert ([cs[1]] + RemoveWhileIterating(cs[2..], t))[1..] == RemoveWhileIterating(cs[2..], t);
      assert cs[1..][1..] == cs[2..];
    }
  }

  /** The loop never makes the list longer, and makes it shorter whenever something matches. */
  lemma {:induction false} RemoveWhileIteratingShrinks(cs: seq<Node>, t: QName)
    ensures |RemoveWhileIterating(cs, t)| <= |cs|
    ensures (exists j :: 0 <= j < |cs| && cs[j].tag == t) ==> |RemoveWhileIterating(cs, t)| < |cs|
    decreases |cs|
  {
    if cs == [] {
    } else if cs[0].tag != t {
      RemoveWhileIteratingShrinks(cs[1..], t);
      if exists j :: 0 <= j < |cs| && cs[j].tag == t {
        var j :| 0 <= j < |cs| && cs[j].tag == t;
        assert cs[1..][j - 1] == cs[j];
      }
    } else if |cs| >= 2 {
      RemoveWhileIteratingShrinks(cs[2..], t);
    }
  }

  /** A list with no child tagged `t` is left alone. */
  lemma {:induction false} RemoveWhileIteratingNoMatch(cs: seq<Node>, t: QName)
    requires forall j :: 0 <= j < |cs| ==> cs[j].tag != t
    ensures RemoveWhileIterating(cs, t) == cs
    decreases |cs|
  {
    if cs != [] {
      RemoveWhileIteratingNoMatch(cs[1..], t);
    }
  }

  /**
   * The loop removes every child tagged `t` exactly when no two of them are
   * adjacent: the child right after a removed one is skipped.
   */
  lemma {:induction false} RemoveWhileIteratingExact(cs: seq<Node>, t: QName)
    ensures RemoveWhileIterating(cs, t) == Without(cs, t) <==> !AdjacentMatches(cs, t)
    decreases |cs|
  {
    if cs == [] {
    } else {
      AdjacentCons(cs, t);
      if cs[0].tag != t {
        RemoveWhileIteratingExact(cs[1..], t);
        var a, b := RemoveWhileIterating(cs[1..], t), Without(cs[1..], t);
        assert ([cs[0]] + a == [cs[0]] + b) <==> a == b by {
          if [cs[0]] + a == [cs[0]] + b {
            assert ([cs[0]] + a)[1..] == a && ([cs[0]] + b)[1..] == b;
          }
        }
      } else if |cs| == 1 {
      } else if cs[1].tag == t {
        var r, w := RemoveWhileIterating(cs, t), Without(cs, t);
        assert r[0].tag == t;
        assert w == [] || w[0].tag != t;
      } else {
        AdjacentCons(cs[1..], t);
        assert cs[1..][1..] == cs[2..];
        RemoveWhileIteratingExact(cs[2..], t);
        var a, b := RemoveWhileIterating(cs[2..], t), Without(cs[2..], t);
        assert Without(cs, t) == [cs[1]] + b;
        assert ([cs[1]] + a == [cs[1]] + b) <==> a == b by {
          if [cs[1]] + a == [cs[1]] + b {
            assert ([cs[1]] + a)[1..] == a && ([cs[1]] + b)[1..] == b;
          }
        }
      }
    }
  }

  /** When two matches are adjacent, a match survives the loop. */
  lemma {:induction false} RemoveWhileIteratingLeavesMatch(cs: seq<Node>, t: QName)
    requires AdjacentMatches(cs, t)
    ensures exists j :: 0 <= j < |RemoveWhileIterating(cs, t)| && RemoveWhileIterating(cs, t)[j].tag == t
    decreases |cs|
  {
    AdjacentCons(cs, t);
    var r := RemoveWhileIterating(cs, t);
    if cs[0].tag != t {
      var rest := RemoveWhileIterating(cs[1..], t);
      assert r == [cs[0]] + rest;
      RemoveWhileIteratingLeavesMatch(cs[1..], t);
      var j :| 0 <= j < |rest| && rest[j].tag == t;
      assert r[j + 1] == rest[j];
    } else if cs[1].tag == t {
      assert r[0] == cs[1];
    } else {
      AdjacentCons(cs[1..], t);
      assert cs[1..][1..] == cs[2..];
      var rest := RemoveWhileIterating(cs[2..], t);
      assert r == [cs[1]] + rest;
      RemoveWhileIteratingLeavesMatch(cs[2..], t);
      var j :| 0 <= j < |rest| && rest[j].tag == t;
      assert r[j + 1] == rest[j];
    }
  }

  /** Running the loop a second time changes the list exactly when the first run left adjacent matches. */
  lemma RemoveWhileIteratingTwice(cs: seq<Node>, t: QName)
    ensures RemoveWhileIterating(RemoveWhileIterating(cs, t), t) == RemoveWhileIterating(cs, t)
            <==> !AdjacentMatches(cs, t)
  {
    var r := RemoveWhileIterating(cs, t);
    if AdjacentMatches(cs, t) {
      RemoveWhileIteratingLeavesMatch(cs, t);
      RemoveWhileIteratingShrinks(r, t);
    } else {
      RemoveWhileIteratingExact(cs, t);
      RemoveWhileIteratingNoMatch(r, t);
    }
  }

  /** Two adjacent Percent elements: the loop removes the first and skips the second. */
  lemma AdjacentPercentsSurvive()
    ensures RemoveWhileIterating([Element(PERCENT), Element(PERCENT)], PERCENT) == [Element(PERCENT)]
  {
    var p := Element(PERCENT);
    assert [p, p][2..] == [];
  }

  // ---------------------------------------------------------------------------
  // Removing and adding one child (lines 4-24).
  // ---------------------------------------------------------------------------

  /** `remove_elementtree_as_child_by_tag` removes the first child with the tag, and nothing else. */
  lemma RemoveByTagRemovesFirst(parent: Node, t: QName)
    ensures var r := RemoveElementtreeAsChildByTag(parent, t);
      SameLabel(r, parent) &&
      ((forall j :: 0 <= j < |parent.children| ==> parent.children[j].tag != t) ==> r == parent) &&
      forall k :: 0 <= k < |parent.children| && FirstWithTag(parent.children, t, k) ==>
        r.children == parent.children[..k] + parent.children[k + 1..]
  {
    var cs := parent.children;
    forall k | 0 <= k < |cs| && FirstWithTag(cs, t, k)
      ensures FirstChild(cs, t) == Some(k)
    {
      var f := FirstChild(cs, t);
      assert f.Some?;
      assert !(f.value < k) && !(k < f.value);
    }
  }

  /** Appending a child and removing by its tag gives the parent back, if no earlier child has that tag. */
  lemma AddThenRemoveByTag(parent: Node, child: Node)
    requires forall j :: 0 <= j < |parent.children| ==> parent.children[j].tag != child.tag
    ensures RemoveElementtreeAsChildByTag(AddElementtreeAsChild(parent, child), child.tag) == parent
  {
    var cs := parent.children + [child];
    assert FirstWithTag(cs, child.tag, |parent.children|);
    RemoveByTagRemovesFirst(AddElementtreeAsChild(parent, child), child.tag);
    assert cs[..|parent.children|] + cs[|parent.children| + 1..] == parent.children;
  }

  // ---------------------------------------------------------------------------
  // Metadata (lines 43-54 and 212-237).
  // ---------------------------------------------------------------------------

  /**
   * After the two insertions the customization identifier is the second child and the
   * profile identifier the third, unless the invoice had no children at all.
   */
  lemma MetadataPositions(invoice: Node)
    ensures var r := AddProfileId(AddCustomizationId(invoice)); var cs := invoice.children;
      SameLabel(r, invoice) &&
      (cs == [] ==> r.children == [CustomizationIdElement(), ProfileIdElement()]) &&
      (cs != [] ==> r.children == [cs[0], CustomizationIdElement(), ProfileIdElement()] + cs[1..])
  {
    var cs := invoice.children;
    var c := AddCustomizationId(invoice);
    if cs != [] {
      assert c.children == [cs[0], CustomizationIdElement()] + cs[1..];
      assert c.children[..2] == [cs[0], CustomizationIdElement()];
      assert c.children[2..] == cs[1..];
    }
  }

  // ---------------------------------------------------------------------------
  // Parties (lines 280-425).
  // ---------------------------------------------------------------------------

  /** The endpoint identifier `add_endpoint_id` puts first carries the enterprise number, and taking it away again restores the party. */
  lemma AddEndpointIdPrepends(party: Node, kbo: string)
    ensures var r := AddEndpointId(party, kbo);
      r.children[0].tag == ENDPOINT_ID &&
      r.children[0].attrib == map["schemeID" := "0208"] && r.children[0].text == Some(kbo)
    ensures RemoveChild(AddEndpointId(party, kbo), 0) == party
  {
    var r := AddEndpointId(party, kbo);
    assert r.children == [EndpointIdElement(kbo)] + party.children;
    assert r.children[..0] + r.children[1..] == party.children;
  }

  /** The one-element edit shared by the party functions: set `key` on the element at `p`. */
  lemma SetAtRelabels(n: Node, p: Path, key: string, value: string)
    requires ValidPath(n, p)
    ensures RelabelsOnly(n, SetAt(n, p, key, value), At(n, p).tag)
    ensures ChangesOnlyAt(n, SetAt(n, p, key, value), p)
    ensures At(SetAt(n, p, key, value), p).attrib == At(n, p).attrib[key := value]
    ensures At(SetAt(n, p, key, value), p).text == At(n, p).text
  {
    RelabelAt(n, p, SetAttr(At(n, p), key, value));
    ChangedOnlyAt(n, p, SetAttr(At(n, p), key, value));
  }

  /**
   * `change_identification_code_list_id` fails only without a postal address; with an
   * identification code in it, that code gets the ISO 3166 list identifier and keeps its
   * text, and no other element changes.
   */
  lemma IdentificationCodeListed(party: Node)
    ensures var o := ChangeIdentificationCodeListId(party);
      match FindBelow(party, [], POSTAL_ADDRESS)
      case None => o == Raised(party, Missing(POSTAL_ADDRESS))
      case Some(address) =>
        o.Done? && RelabelsOnly(party, o.tree, IDENTIFICATION_CODE) &&
        match FindBelow(party, address, IDENTIFICATION_CODE)
        case None => o.tree == party
        case Some(code) =>
          ChangesOnlyAt(party, o.tree, code) && At(o.tree, code).text == At(party, code).text &&
          At(o.tree, code).attrib == At(party, code).attrib["listID" := ISO3166_ALPHA2]
  {
    match FindBelow(party, [], POSTAL_ADDRESS)
    case None =>
    case Some(address) =>
      match FindBelow(party, address, IDENTIFICATION_CODE)
      case None =>
        assert RelabelsOnly(party, party, IDENTIFICATION_CODE);
      case Some(code) =>
        SetAtRelabels(party, code, "listID", ISO3166_ALPHA2);
  }

  /**
   * `remove_scheme_id_of_id` without a party tax scheme changes nothing; with one, it
   * needs a tax scheme with an ID, succeeds exactly when that ID has both attributes,
   * and then removes both, keeps the ID's text and changes no other element.
   */
  lemma SchemeIdRemoved(party: Node)
    ensures var o := RemoveSchemeIdOfId(party);
      match FindBelow(party, [], PARTY_TAX_SCHEME)
      case None => o == Done(party)
      case Some(partyTaxScheme) =>
        match FindBelow(party, partyTaxScheme, TAX_SCHEME)
        case None => o == Raised(party, Missing(TAX_SCHEME))
        case Some(scheme) =>
          match FindBelow(party, scheme, ID)
          case None => o == Raised(party, Missing(ID))
          case Some(id) =>
            var a := At(party, id).attrib;
            (o.Done? <==> "schemeID" in a && "schemeAgencyID" in a) &&
            (o.Done? ==> RelabelsOnly(party, o.tree, ID) && At(o.tree, id).attrib == a - {"schemeID", "schemeAgencyID"}) &&
            (o.Done? ==> ChangesOnlyAt(party, o.tree, id) && At(o.tree, id).text == At(party, id).text) &&
            (o.Raised? ==> o.error == MissingAttribute(if "schemeID" in a then "schemeAgencyID" else "schemeID"))
  {
    match FindBelow(party, [], PARTY_TAX_SCHEME)
    case None =>
    case Some(partyTaxScheme) =>
      match FindBelow(party, partyTaxScheme, TAX_SCHEME)
      case None =>
      case Some(scheme) =>
        match FindBelow(party, scheme, ID)
        case None =>
        case Some(id) =>
          SchemeIdPopped(party, id);
  }

  /** The two `attrib.pop` calls of `remove_scheme_id_of_id` on the element at `id`. */
  lemma SchemeIdPopped(party: Node, id: Path)
    requires ValidPath(party, id) && At(party, id).tag == ID
    ensures var a := At(party, id).attrib;
      var o := match PopAt(party, id, "schemeID")
        case Raised(tree, error) => Raised(tree, error)
        case Done(p1) => PopAt(p1, id, "schemeAgencyID");
      (o.Done? <==> "schemeID" in a && "schemeAgencyID" in a) &&
      (o.Done? ==> RelabelsOnly(party, o.tree, ID) && At(o.tree, id).attrib == a - {"schemeID", "schemeAgencyID"}) &&
      (o.Done? ==> ChangesOnlyAt(party, o.tree, id) && At(o.tree, id).text == At(party, id).text) &&
      (o.Raised? ==> o.error == MissingAttribute(if "schemeID" in a then "schemeAgencyID" else "schemeID"))
  {
    var a := At(party, id).attrib;
    if "schemeID" in a {
      var x1 := PopAttr(At(party, id), "schemeID");
      var p1 := Put(party, id, x1);
      RelabelAt(party, id, x1);
      assert PopAt(party, id, "schemeID") == Done(p1);
      assert At(p1, id) == x1;
      if "schemeAgencyID" in a {
        var x2 := PopAttr(x1, "schemeAgencyID");
        RelabelAt(p1, id, x2);
        RelabelsOnlyTrans(party, p1, Put(p1, id, x2), ID);
        ChangedOnlyAt(party, id, x1);
        ChangedOnlyAt(p1, id, x2);
        ChangesOnlyAtTrans(party, p1, Put(p1, id, x2), id);
        assert x2.attrib == a - {"schemeID", "schemeAgencyID"};
      }
    }
  }

  /** `electronic_mail_add_languageId` needs a contact with an e-mail address, and tags that address only. */
  lemma ElectronicMailTagged(party: Node)
    ensures var o := ElectronicMailAddLanguageId(party);
      match FindBelow(party, [], CONTACT)
      case None => o == Raised(party, Missing(CONTACT))
      case Some(contact) =>
        match FindBelow(party, contact, ELECTRONIC_MAIL)
        case None => o == Raised(party, Missing(ELECTRONIC_MAIL))
        case Some(mail) =>
          o.Done? && RelabelsOnly(party, o.tree, ELECTRONIC_MAIL) &&
          ChangesOnlyAt(party, o.tree, mail) && At(o.tree, mail).text == At(party, mail).text &&
          At(o.tree, mail).attrib == At(party, mail).attrib["languageID" := LANGUAGE]
  {
    match FindBelow(party, [], CONTACT)
    case None =>
    case Some(contact) =>
      match FindBelow(party, contact, ELECTRONIC_MAIL)
      case None =>
      case Some(mail) =>
        SetAtRelabels(party, mail, "languageID", LANGUAGE);
  }

  /** `change_party_legal_entity` needs entity, country and code, and tags that code only. */
  lemma LegalEntityCountryListed(party: Node)
    ensures var o := ChangePartyLegalEntity(party);
      match FindBelow(party, [], PARTY_LEGAL_ENTITY)
      case None => o == Raised(party, Missing(PARTY_LEGAL_ENTITY))
      case Some(entity) =>
        match FindBelow(party, entity, COUNTRY)
        case None => o == Raised(party, Missing(COUNTRY))
        case Some(country) =>
          match FindBelow(party, country, IDENTIFICATION_CODE)
          case None => o == Raised(party, Missing(IDENTIFICATION_CODE))
          case Some(code) =>
            o.Done? && RelabelsOnly(party, o.tree, IDENTIFICATION_CODE) &&
            ChangesOnlyAt(party, o.tree, code) && At(o.tree, code).text == At(party, code).text &&
            At(o.tree, code).attrib == At(party, code).attrib["listID" := ISO3166_ALPHA2]
  {
    match FindBelow(party, [], PARTY_LEGAL_ENTITY)
    case None =>
    case Some(entity) =>
      match FindBelow(party, entity, COUNTRY)
      case None =>
      case Some(country) =>
        match FindBelow(party, country, IDENTIFICATION_CODE)
        case None =>
        case Some(code) =>
          SetAtRelabels(party, code, "listID", ISO3166_ALPHA2);
  }

  /**
   * `add_party_legal_entity_with_endpointid` puts the new legal entity just before the
   * last child, with the party name as registration name and the enterprise number as
   * company identifier.
   */
  lemma LegalEntityBeforeLast(party: Node, endpointId: string, partyName: Path, name: Path)
    requires FindBelow(party, [], PARTY_NAME) == Some(partyName)
    requires FindBelow(party, partyName, NAME) == Some(name)
    ensures var o := AddPartyLegalEntityWithEndpointId(party, endpointId); var cs := party.children;
      o.Done? && cs != [] && SameLabel(o.tree, party) &&
      o.tree.children == cs[..|cs| - 1] + [LegalEntityElement(At(party, name).text, endpointId)] + cs[|cs| - 1..]
  {
    assert ShapeOf(party).kids == ShapesOf(party.children);
  }

  /** `add_party_legal_entity_with_endpointid` fails exactly when the party name or its name is missing. */
  lemma LegalEntityNeedsName(party: Node, endpointId: string)
    ensures var o := AddPartyLegalEntityWithEndpointId(party, endpointId);
      match FindBelow(party, [], PARTY_NAME)
      case None => o == Raised(party, Missing(PARTY_NAME))
      case Some(partyName) =>
        match FindBelow(party, partyName, NAME)
        case None => o == Raised(party, Missing(NAME))
        case Some(name) => o.Done?
  {
    match FindBelow(party, [], PARTY_NAME)
    case None =>
    case Some(partyName) =>
      match FindBelow(party, partyName, NAME)
      case None =>
      case Some(name) => LegalEntityBeforeLast(party, endpointId, partyName, name);
  }

  /** With a party tax scheme `add_party_legal_entity` always raises, and leaves the party as it was. */
  lemma LegalEntityFromTaxSchemeFails(party: Node, endpointId: string)
    requires Find(party, PARTY_TAX_SCHEME).Some?
    ensures AddPartyLegalEntity(party, endpointId).Raised?
    ensures AddPartyLegalEntity(party, endpointId).tree == party
  {
  }

  /** The endpoint identifier that the supplier's conversion inserts is still its first child at the end. */
  lemma SupplierEndpointStaysFirst(party: Node, kbo: string)
    ensures var o := SupplierPartySteps(party, kbo);
      o.Done? ==> EndpointFirst(o.tree, kbo)
  {
    var p0 := AddEndpointId(party, kbo);
    AddEndpointIdPrepends(party, kbo);
    var p1 := RemoveWebsiteUri(p0);
    assert p1.children[0] == EndpointIdElement(kbo);
    var o2 := ChangeIdentificationCodeListId(p1);
    IdentificationKeepsEndpoint(p1, kbo);
    if o2.Done? {
      var o3 := RemoveSchemeIdOfId(o2.tree);
      SchemeIdKeepsEndpoint(o2.tree, kbo);
      if o3.Done? {
        var o4 := ChangePartyLegalEntity(o3.tree);
        CountryKeepsEndpoint(o3.tree, kbo);
        if o4.Done? {
          MailKeepsEndpoint(o4.tree, kbo);
        }
      }
    }
  }

  /** The endpoint identifier for `kbo` is the first child of `n`. */
  predicate EndpointFirst(n: Node, kbo: string)
  {
    n.children != [] && n.children[0] == EndpointIdElement(kbo)
  }

  lemma IdentificationKeepsEndpoint(p: Node, kbo: string)
    requires EndpointFirst(p, kbo)
    ensures ChangeIdentificationCodeListId(p).Done? ==> EndpointFirst(ChangeIdentificationCodeListId(p).tree, kbo)
  {
    IdentificationCodeListed(p);
    if ChangeIdentificationCodeListId(p).Done? {
      EndpointKept(p, ChangeIdentificationCodeListId(p).tree, IDENTIFICATION_CODE, kbo);
    }
  }

  lemma SchemeIdKeepsEndpoint(p: Node, kbo: string)
    requires EndpointFirst(p, kbo)
    ensures RemoveSchemeIdOfId(p).Done? ==> EndpointFirst(RemoveSchemeIdOfId(p).tree, kbo)
  {
    SchemeIdRemoved(p);
    if RemoveSchemeIdOfId(p).Done? {
      EndpointKept(p, RemoveSchemeIdOfId(p).tree, ID, kbo);
    }
  }

  lemma CountryKeepsEndpoint(p: Node, kbo: string)
    requires EndpointFirst(p, kbo)
    ensures ChangePartyLegalEntity(p).Done? ==> EndpointFirst(ChangePartyLegalEntity(p).tree, kbo)
  {
    LegalEntityCountryListed(p);
    if ChangePartyLegalEntity(p).Done? {
      EndpointKept(p, ChangePartyLegalEntity(p).tree, IDENTIFICATION_CODE, kbo);
    }
  }

  lemma MailKeepsEndpoint(p: Node, kbo: string)
    requires EndpointFirst(p, kbo)
    ensures ElectronicMailAddLanguageId(p).Done? ==> EndpointFirst(ElectronicMailAddLanguageId(p).tree, kbo)
  {
    ElectronicMailTagged(p);
    if ElectronicMailAddLanguageId(p).Done? {
      EndpointKept(p, ElectronicMailAddLanguageId(p).tree, ELECTRONIC_MAIL, kbo);
    }
  }

  /**
   * `remove_website_uri` keeps every other child in order, and leaves no website
   * address behind exactly when no two of them were adjacent.
   */
  lemma WebsiteUriRemoved(party: Node, kbo: string)
    ensures var p0 := AddEndpointId(party, kbo); var p := RemoveWebsiteUri(p0);
      SameLabel(p, party) &&
      Without(p.children, WEBSITE_URI) == Without(p0.children, WEBSITE_URI) &&
      ((forall j :: 0 <= j < |p.children| ==> p.children[j].tag != WEBSITE_URI) <==>
       !AdjacentMatches(party.children, WEBSITE_URI))
  {
    var p0 := AddEndpointId(party, kbo);
    AddEndpointIdPrepends(party, kbo);
    assert p0.children[1..] == party.children;
    AdjacentCons(p0.children, WEBSITE_URI);
    RemoveWhileIteratingKeepsOthers(p0.children, WEBSITE_URI);
    if AdjacentMatches(party.children, WEBSITE_URI) {
      RemoveWhileIteratingLeavesMatch(p0.children, WEBSITE_URI);
    } else {
      RemoveWhileIteratingExact(p0.children, WEBSITE_URI);
    }
  }

  /** No direct child of `n` is tagged `t`. */
  predicate NoChildTagged(n: Node, t: QName)
  {
    forall j :: 0 <= j < |n.children| ==> n.children[j].tag != t
  }

  lemma SameShapeNoChild(a: Node, b: Node, t: QName)
    requires ShapeOf(a) == ShapeOf(b) && NoChildTagged(a, t)
    ensures NoChildTagged(b, t)
  {
    SameShapeChildren(a, b);
  }

  /** Without adjacent website addresses, the converted supplier party has none left among its children. */
  lemma SupplierWebsiteGone(party: Node, kbo: string)
    requires !AdjacentMatches(party.children, WEBSITE_URI)
    ensures var o := SupplierPartySteps(party, kbo);
      o.Done? ==> NoChildTagged(o.tree, WEBSITE_URI)
  {
    var p1 := RemoveWebsiteUri(AddEndpointId(party, kbo));
    WebsiteUriRemoved(party, kbo);
    assert NoChildTagged(p1, WEBSITE_URI);
    var o2 := ChangeIdentificationCodeListId(p1);
    if o2.Done? {
      SameShapeNoChild(p1, o2.tree, WEBSITE_URI);
      var o3 := RemoveSchemeIdOfId(o2.tree);
      if o3.Done? {
        SameShapeNoChild(o2.tree, o3.tree, WEBSITE_URI);
        var o4 := ChangePartyLegalEntity(o3.tree);
        if o4.Done? {
          SameShapeNoChild(o3.tree, o4.tree, WEBSITE_URI);
          var o5 := ElectronicMailAddLanguageId(o4.tree);
          if o5.Done? {
            SameShapeNoChild(o4.tree, o5.tree, WEBSITE_URI);
          }
        }
      }
    }
  }

  /** The customer's endpoint identifier is still its first child at the end, legal entity and all. */
  lemma CustomerEndpointStaysFirst(party: Node, kbo: string)
    ensures var o := CustomerPartySteps(party, kbo);
      o.Done? ==> EndpointFirst(o.tree, kbo)
  {
    var p1 := AddEndpointId(party, kbo);
    AddEndpointIdPrepends(party, kbo);
    var o2 := ChangeIdentificationCodeListId(p1);
    IdentificationKeepsEndpoint(p1, kbo);
    if o2.Done? {
      var o3 := RemoveSchemeIdOfId(o2.tree);
      SchemeIdKeepsEndpoint(o2.tree, kbo);
      if o3.Done? {
        var o4 := AddPartyLegalEntity(o3.tree, kbo);
        LegalEntityKeepsEndpoint(o3.tree, kbo);
        if o4.Done? {
          MailKeepsEndpoint(o4.tree, kbo);
        }
      }
    }
  }

  /** The legal entity goes in before the last child, which is never the endpoint identifier in front. */
  lemma LegalEntityKeepsEndpoint(party: Node, kbo: string)
    requires EndpointFirst(party, kbo)
    ensures var o := AddPartyLegalEntity(party, kbo);
      o.Done? ==> EndpointFirst(o.tree, kbo)
  {
    var o := AddPartyLegalEntity(party, kbo);
    if o.Done? {
      var partyName := Find(party, PARTY_NAME).value;
      assert ValidPath(party, partyName);
      if partyName[0] == 0 {
        IntoLeaf(party, partyName);
      }
      assert ShapeOf(party).kids == ShapesOf(party.children);
      assert |party.children| >= 2;
    }
  }

  /** A relabelling of other tags keeps a childless endpoint identifier in first place. */
  lemma EndpointKept(a: Node, b: Node, t: QName, kbo: string)
    requires EndpointFirst(a, kbo) && t != ENDPOINT_ID
    requires RelabelsOnly(a, b, t)
    ensures EndpointFirst(b, kbo)
  {
    SameShapeChildren(a, b);
    assert ValidPath(a, [0]) by {
      assert ShapeOf(a).kids[0] == ShapeOf(a.children[0]);
    }
    assert SameLabel(At(b, [0]), At(a, [0]));
    assert ShapeOf(b).kids[0] == ShapeOf(b.children[0]);
  }
}
