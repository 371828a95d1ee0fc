/**
 * Properties of the payment means, tax total and invoice line edits: which attributes
 * the payment means identifiers end up with and when renaming their scheme fails, what a
 * tax category looks like once rewritten, when converting the tax total twice changes
 * nothing more, and how the invoice line's children are rearranged.
 */
module TaxProperties {
  import opened ElementTree
  import opened Ubl
  import opened Rules
  import opened Properties

  // ---------------------------------------------------------------------------
  // Payment means (lines 95-123).
  // ---------------------------------------------------------------------------

  /** Renaming a scheme needs `schemeName`; it then becomes `schemeID`, with the text untouched. */
  lemma RenameSchemeEffect(n: Node, p: Path, scheme: string)
    requires ValidPath(n, p)
    ensures var o := RenameScheme(n, p, scheme);
      (o.Done? <==> "schemeName" in At(n, p).attrib) &&
      (o.Raised? ==> o == Raised(n, MissingAttribute("schemeName"))) &&
      (o.Done? ==> ValidPath(o.tree, p) && At(o.tree, p).text == At(n, p).text &&
                   At(o.tree, p).attrib == (At(n, p).attrib - {"schemeName"})["schemeID" := scheme])
  {
    var o := RenameScheme(n, p, scheme);
    if o.Done? {
      var n1 := Put(n, p, PopAttr(At(n, p), "schemeName"));
      PutPut(n, p, PopAttr(At(n, p), "schemeName"), SetAttr(At(n1, p), "schemeID", scheme));
    }
  }

  /** Renaming a scheme leaves the label of every other element alone. */
  lemma RenameSchemeElsewhere(n: Node, p: Path, scheme: string, q: Path)
    requires ValidPath(n, p) && ValidPath(n, q) && q != p
    requires RenameScheme(n, p, scheme).Done?
    ensures ValidPath(RenameScheme(n, p, scheme).tree, q)
    ensures SameLabel(At(RenameScheme(n, p, scheme).tree, q), At(n, q))
  {
    var x := PopAttr(At(n, p), "schemeName");
    var n1 := Put(n, p, x);
    RelabelElsewhere(n, p, x, q);
    RelabelElsewhere(n1, p, SetAttr(At(n1, p), "schemeID", scheme), q);
  }

  /** The second half of the payment means edits, once its three lookups succeed. */
  lemma InstitutionSchemeRenamed(m: Node, account: Path, branch: Path, institution: Path, bic: Path)
    requires ValidPath(m, account)
    requires FindBelow(m, account, FINANCIAL_INSTITUTION_BRANCH) == Some(branch)
    requires FindBelow(m, branch, FINANCIAL_INSTITUTION) == Some(institution)
    requires FindBelow(m, institution, ID) == Some(bic)
    ensures RenameInstitutionScheme(m, account) == RenameScheme(m, bic, BIC)
  {
  }

  /** The first half of the payment means edits, once its three lookups succeed. */
  lemma PaymentMeansFirstHalf(means: Node, code: Path, account: Path, iban: Path)
    requires FindBelow(means, [], PAYMENT_MEANS_CODE) == Some(code)
    requires FindBelow(means, [], PAYEE_FINANCIAL_ACCOUNT) == Some(account)
    requires FindBelow(means, account, ID) == Some(iban)
    ensures var m1 := SetAt(means, code, "listID", UNCL4461);
      ValidPath(m1, iban) && ValidPath(m1, account) &&
      var r2 := RenameScheme(m1, iban, IBAN);
      PaymentMeansSteps(means) == if r2.Raised? then r2 else RenameInstitutionScheme(r2.tree, account)
  {
    var m1 := SetAt(means, code, "listID", UNCL4461);
    SameShapeFind(means, m1, [], PAYEE_FINANCIAL_ACCOUNT);
    SameShapeFind(means, m1, account, ID);
  }

  /** The payment means code's code list, then the two scheme renames. */
  function CodeThenRenames(means: Node, code: Path, iban: Path, bic: Path): Outcome
    requires ValidPath(means, code) && ValidPath(means, iban) && ValidPath(means, bic)
  {
    var m1 := SetAt(means, code, "listID", UNCL4461);
    var r2 := RenameScheme(m1, iban, IBAN);
    if r2.Raised? then r2 else RenameScheme(r2.tree, bic, BIC)
  }

  /** With every lookup resolved, the payment means edits are the two scheme renames. */
  lemma PaymentMeansUnfold(means: Node, code: Path, account: Path, iban: Path,
                           branch: Path, institution: Path, bic: Path)
    requires FindBelow(means, [], PAYMENT_MEANS_CODE) == Some(code)
    requires FindBelow(means, [], PAYEE_FINANCIAL_ACCOUNT) == Some(account)
    requires FindBelow(means, account, ID) == Some(iban)
    requires FindBelow(means, account, FINANCIAL_INSTITUTION_BRANCH) == Some(branch)
    requires FindBelow(means, branch, FINANCIAL_INSTITUTION) == Some(institution)
    requires FindBelow(means, institution, ID) == Some(bic)
    ensures ValidPath(means, code) && ValidPath(means, iban) && ValidPath(means, bic)
    ensures PaymentMeansSteps(means) == CodeThenRenames(means, code, iban, bic)
  {
    PaymentMeansFirstHalf(means, code, account, iban);
    var r2 := RenameScheme(SetAt(means, code, "listID", UNCL4461), iban, IBAN);
    if r2.Done? {
      SameShapeFind(means, r2.tree, account, FINANCIAL_INSTITUTION_BRANCH);
      SameShapeFind(means, r2.tree, branch, FINANCIAL_INSTITUTION);
      SameShapeFind(means, r2.tree, institution, ID);
      InstitutionSchemeRenamed(r2.tree, account, branch, institution, bic);
    }
  }

  /** Two scheme renames in a row, at `iban` and then at `bic`. */
  lemma RenameTwice(m: Node, iban: Path, bic: Path, q: Path)
    requires ValidPath(m, iban) && ValidPath(m, bic) && ValidPath(m, q) && q != iban && q != bic
    ensures var r2 := RenameScheme(m, iban, IBAN);
      (r2.Done? ==> ValidPath(r2.tree, bic)) &&
      var o := if r2.Raised? then r2 else RenameScheme(r2.tree, bic, BIC);
      (o.Done? <==> iban != bic && "schemeName" in At(m, iban).attrib && "schemeName" in At(m, bic).attrib) &&
      (o.Raised? ==> o.error == MissingAttribute("schemeName")) &&
      (o.Done? ==>
         ShapeOf(o.tree) == ShapeOf(m) &&
         SameLabel(At(o.tree, q), At(m, q)) &&
         At(o.tree, iban).attrib == (At(m, iban).attrib - {"schemeName"})["schemeID" := IBAN] &&
         At(o.tree, bic).attrib == (At(m, bic).attrib - {"schemeName"})["schemeID" := BIC])
  {
    RenameSchemeEffect(m, iban, IBAN);
    var r2 := RenameScheme(m, iban, IBAN);
    if r2.Done? {
      var m2 := r2.tree;
      if iban != bic {
        RenameSchemeElsewhere(m, iban, IBAN, bic);
      }
      RenameSchemeEffect(m2, bic, BIC);
      var r3 := RenameScheme(m2, bic, BIC);
      if r3.Done? {
        RenameSchemeElsewhere(m, iban, IBAN, q);
        RenameSchemeElsewhere(m2, bic, BIC, q);
        RenameSchemeElsewhere(m2, bic, BIC, iban);
      }
    }
  }

  lemma CodeThenRenamesEffect(means: Node, code: Path, iban: Path, bic: Path)
    requires ValidPath(means, code) && ValidPath(means, iban) && ValidPath(means, bic)
    requires code != iban && code != bic
    ensures var o := CodeThenRenames(means, code, iban, bic);
      (o.Done? <==> iban != bic && "schemeName" in At(means, iban).attrib && "schemeName" in At(means, bic).attrib) &&
      (o.Raised? ==> o.error == MissingAttribute("schemeName")) &&
      (o.Done? ==>
         At(o.tree, code).attrib == At(means, code).attrib["listID" := UNCL4461] &&
         At(o.tree, iban).attrib == (At(means, iban).attrib - {"schemeName"})["schemeID" := IBAN] &&
         At(o.tree, bic).attrib == (At(means, bic).attrib - {"schemeName"})["schemeID" := BIC])
  {
    var codeNode := SetAttr(At(means, code), "listID", UNCL4461);
    RelabelElsewhere(means, code, codeNode, iban);
    RelabelElsewhere(means, code, codeNode, bic);
    RenameTwice(SetAt(means, code, "listID", UNCL4461), iban, bic, code);
  }

  /**
   * Once every lookup of `convert_payment_means` succeeds, it succeeds exactly when both
   * identifiers carry `schemeName` and are two different elements: when the institution's
   * identifier is also the first one below the account, the second `pop` finds the name
   * already gone.
   */
  lemma PaymentMeansSucceeds(means: Node, code: Path, account: Path, iban: Path,
                             branch: Path, institution: Path, bic: Path)
    requires FindBelow(means, [], PAYMENT_MEANS_CODE) == Some(code)
    requires FindBelow(means, [], PAYEE_FINANCIAL_ACCOUNT) == Some(account)
    requires FindBelow(means, account, ID) == Some(iban)
    requires FindBelow(means, account, FINANCIAL_INSTITUTION_BRANCH) == Some(branch)
    requires FindBelow(means, branch, FINANCIAL_INSTITUTION) == Some(institution)
    requires FindBelow(means, institution, ID) == Some(bic)
    ensures var o := PaymentMeansSteps(means);
      (o.Done? <==> iban != bic && "schemeName" in At(means, iban).attrib && "schemeName" in At(means, bic).attrib) &&
      (o.Raised? ==> o.error == MissingAttribute("schemeName"))
  {
    PaymentMeansUnfold(means, code, account, iban, branch, institution, bic);
    CodeThenRenamesEffect(means, code, iban, bic);
  }

  /**
   * `convert_payment_means` inside the payment means fails when any element it looks up is
   * missing, naming the missing tag, on the tree as edited so far: the code list is set
   * once the code was found, and the IBAN is renamed before the institution is looked up.
   */
  lemma PaymentMeansNeedsNodes(means: Node)
    ensures var o := PaymentMeansSteps(means);
      match FindBelow(means, [], PAYMENT_MEANS_CODE)
      case None => o == Raised(means, Missing(PAYMENT_MEANS_CODE))
      case Some(code) =>
        var m1 := SetAt(means, code, "listID", UNCL4461);
        match FindBelow(means, [], PAYEE_FINANCIAL_ACCOUNT)
        case None => o == Raised(m1, Missing(PAYEE_FINANCIAL_ACCOUNT))
        case Some(account) =>
          match FindBelow(means, account, ID)
          case None => o == Raised(m1, Missing(ID))
          case Some(iban) =>
            match RenameScheme(m1, iban, IBAN)
            case Raised(t, e) => o == Raised(t, e)
            case Done(m2) =>
              match FindBelow(means, account, FINANCIAL_INSTITUTION_BRANCH)
              case None => o == Raised(m2, Missing(FINANCIAL_INSTITUTION_BRANCH))
              case Some(branch) =>
                match FindBelow(means, branch, FINANCIAL_INSTITUTION)
                case None => o == Raised(m2, Missing(FINANCIAL_INSTITUTION))
                case Some(institution) =>
                  FindBelow(means, institution, ID).None? ==> o == Raised(m2, Missing(ID))
  {
    match FindBelow(means, [], PAYMENT_MEANS_CODE)
    case None =>
    case Some(code) =>
      var m1 := SetAt(means, code, "listID", UNCL4461);
      SameShapeFind(means, m1, [], PAYEE_FINANCIAL_ACCOUNT);
      match FindBelow(means, [], PAYEE_FINANCIAL_ACCOUNT)
      case None =>
      case Some(account) =>
        SameShapeFind(means, m1, account, ID);
        match FindBelow(means, account, ID)
        case None =>
        case Some(iban) =>
          var r2 := RenameScheme(m1, iban, IBAN);
          if r2.Done? {
            var m2 := r2.tree;
            SameShapeFind(means, m2, [], PAYMENT_MEANS_CODE);
            SameShapeFind(means, m2, account, FINANCIAL_INSTITUTION_BRANCH);
            match FindBelow(means, account, FINANCIAL_INSTITUTION_BRANCH)
            case None =>
            case Some(branch) =>
              SameShapeFind(means, m2, branch, FINANCIAL_INSTITUTION);
              match FindBelow(means, branch, FINANCIAL_INSTITUTION)
              case None =>
              case Some(institution) =>
                SameShapeFind(means, m2, institution, ID);
          }
  }

  /**
   * When `convert_payment_means` succeeds, the payment means code gets its code list and
   * each identifier's `schemeName` becomes `schemeID` IBAN and BIC.
   */
  lemma PaymentMeansConverted(means: Node, code: Path, account: Path, iban: Path,
                              branch: Path, institution: Path, bic: Path)
    requires FindBelow(means, [], PAYMENT_MEANS_CODE) == Some(code)
    requires FindBelow(means, [], PAYEE_FINANCIAL_ACCOUNT) == Some(account)
    requires FindBelow(means, account, ID) == Some(iban)
    requires FindBelow(means, account, FINANCIAL_INSTITUTION_BRANCH) == Some(branch)
    requires FindBelow(means, branch, FINANCIAL_INSTITUTION) == Some(institution)
    requires FindBelow(means, institution, ID) == Some(bic)
    requires PaymentMeansSteps(means).Done?
    ensures var r := PaymentMeansSteps(means).tree;
      At(r, code).attrib == At(means, code).attrib["listID" := UNCL4461] &&
      At(r, iban).attrib == (At(means, iban).attrib - {"schemeName"})["schemeID" := IBAN] &&
      At(r, bic).attrib == (At(means, bic).attrib - {"schemeName"})["schemeID" := BIC]
  {
    PaymentMeansUnfold(means, code, account, iban, branch, institution, bic);
    CodeThenRenamesEffect(means, code, iban, bic);
  }

  // ---------------------------------------------------------------------------
  // The tax category rewrite (lines 140-153, repeated at lines 179-192).
  // ---------------------------------------------------------------------------

  /** The two edits of a tax category, at its ID and then at its tax scheme's ID. */
  function CategoryEdits(c: Node, id: Path, schemeId: Path): Node
    requires ValidPath(c, id) && ValidPath(c, schemeId)
  {
    var c1 := Put(c, id, StandardRated(At(c, id)));
    Put(c1, schemeId, ClearAttrs(At(c1, schemeId)))
  }

  /** With its three lookups resolved, the tax category rewrite is the two edits. */
  lemma TaxCategoryUnfold(c: Node, id: Path, scheme: Path, schemeId: Path)
    requires FindBelow(c, [], ID) == Some(id)
    requires FindBelow(c, [], TAX_SCHEME) == Some(scheme)
    requires FindBelow(c, scheme, ID) == Some(schemeId)
    ensures RewriteTaxCategory(c) == Done(CategoryEdits(c, id, schemeId))
  {
    var c1 := Put(c, id, StandardRated(At(c, id)));
    SameShapeFind(c, c1, [], TAX_SCHEME);
    SameShapeFind(c, c1, scheme, ID);
  }

  /**
   * What the two edits leave: the category's ID has code S and only `schemeID` UNCL5305
   * (no attribute at all when it is also the tax scheme's ID), the tax scheme's ID has no
   * attributes, and no element other than an ID changes.
   */
  lemma CategoryEditsEffect(c: Node, id: Path, schemeId: Path)
    requires ValidPath(c, id) && ValidPath(c, schemeId) && At(c, id).tag == ID && At(c, schemeId).tag == ID
    ensures var r := CategoryEdits(c, id, schemeId);
      RelabelsOnly(c, r, ID) &&
      At(r, id).text == Some(STANDARD_RATE) &&
      At(r, id).attrib == (if id == schemeId then map[] else map["schemeID" := UNCL5305]) &&
      At(r, schemeId).attrib == map[]
  {
    var x := StandardRated(At(c, id));
    var c1 := Put(c, id, x);
    RelabelAt(c, id, x);
    var y := ClearAttrs(At(c1, schemeId));
    assert ShapeOf(At(c1, schemeId)) == ShapeOf(At(c, schemeId));
    RelabelAt(c1, schemeId, y);
    RelabelsOnlyTrans(c, c1, Put(c1, schemeId, y), ID);
    if id != schemeId {
      RelabelElsewhere(c1, schemeId, y, id);
    }
  }

  /**
   * `convert_tax_total` on a tax category: each lookup that finds nothing raises, with the
   * edits made before it kept; when all three succeed the category is rewritten.
   */
  lemma TaxCategoryRewritten(c: Node)
    ensures var o := RewriteTaxCategory(c);
      match FindBelow(c, [], ID)
      case None => o == Raised(c, Missing(ID))
      case Some(id) =>
        var c1 := Put(c, id, StandardRated(At(c, id)));
        match FindBelow(c, [], TAX_SCHEME)
        case None => o == Raised(c1, Missing(TAX_SCHEME))
        case Some(scheme) =>
          match FindBelow(c, scheme, ID)
          case None => o == Raised(c1, Missing(ID))
          case Some(schemeId) =>
            o.Done? && RelabelsOnly(c, o.tree, ID) &&
            At(o.tree, id).text == Some(STANDARD_RATE) &&
            At(o.tree, id).attrib == (if id == schemeId then map[] else map["schemeID" := UNCL5305]) &&
            At(o.tree, schemeId).attrib == map[]
  {
    match FindBelow(c, [], ID)
    case None =>
    case Some(id) =>
      var c1 := Put(c, id, StandardRated(At(c, id)));
      SameShapeFind(c, c1, [], TAX_SCHEME);
      match FindBelow(c, [], TAX_SCHEME)
      case None =>
      case Some(scheme) =>
        SameShapeFind(c, c1, scheme, ID);
        match FindBelow(c, scheme, ID)
        case None =>
        case Some(schemeId) =>
          TaxCategoryUnfold(c, id, scheme, schemeId);
          CategoryEditsEffect(c, id, schemeId);
  }

  /** Rewriting a tax category that was just rewritten changes nothing. */
  lemma TaxCategoryIdempotent(c: Node)
    requires RewriteTaxCategory(c).Done?
    ensures RewriteTaxCategory(RewriteTaxCategory(c).tree) == RewriteTaxCategory(c)
  {
    TaxCategoryRewritten(c);
    var id := FindBelow(c, [], ID).value;
    var scheme := FindBelow(c, [], TAX_SCHEME).value;
    var schemeId := FindBelow(c, scheme, ID).value;
    var r := RewriteTaxCategory(c).tree;
    SameShapeFind(c, r, [], ID);
    SameShapeFind(c, r, [], TAX_SCHEME);
    SameShapeFind(c, r, scheme, ID);
    TaxCategoryUnfold(r, id, scheme, schemeId);
    var x := StandardRated(At(r, id));
    if id != schemeId {
      assert x == At(r, id);
      PutAt(r, id);
      assert ClearAttrs(At(r, schemeId)) == At(r, schemeId);
      PutAt(r, schemeId);
    } else {
      var c1 := Put(r, id, x);
      assert ClearAttrs(At(c1, id)) == At(r, id);
      PutPut(r, id, x, At(r, id));
      PutAt(r, id);
    }
  }

  // ---------------------------------------------------------------------------
  // The tax total (lines 126-154).
  // ---------------------------------------------------------------------------

  /** The tags of a list of elements, in order. */
  function Tags(cs: seq<Node>): seq<QName>
  {
    seq(|cs|, j requires 0 <= j < |cs| => cs[j].tag)
  }

  /** The subtotal `convert_tax_total` finds has no two Percent children in a row. */
  predicate PercentsApart(total: Node)
  {
    match FindBelow(total, [], TAX_SUBTOTAL)
    case None => true
    case Some(subtotal) => !AdjacentMatches(At(total, subtotal).children, PERCENT)
  }

  /** The subtotal with the Percent loop applied, seen from the tax total. */
  function WithoutPercents(total: Node, subtotal: Path): (r: Node)
    requires ValidPath(total, subtotal)
    ensures ValidPath(r, subtotal)
  {
    Put(total, subtotal, RemovePercent(At(total, subtotal)))
  }

  /** With its two lookups resolved, the tax total edits are the Percent loop and the category rewrite. */
  lemma TaxTotalUnfold(total: Node, subtotal: Path, category: Path)
    requires FindBelow(total, [], TAX_SUBTOTAL) == Some(subtotal)
    requires FindBelow(WithoutPercents(total, subtotal), subtotal, TAX_CATEGORY) == Some(category)
    ensures var t1 := WithoutPercents(total, subtotal);
      TaxTotalSteps(total) == Within(t1, category, RewriteTaxCategory(At(t1, category)))
  {
  }

  /**
   * Any tree shaped like the tax total after the Percent loop holds, in the subtotal,
   * the tags the loop leaves; no Percent is among them exactly when no two were adjacent.
   */
  lemma SubtotalTags(total: Node, subtotal: Path, r: Node)
    requires ValidPath(total, subtotal) && ShapeOf(r) == ShapeOf(WithoutPercents(total, subtotal))
    ensures ValidPath(r, subtotal)
    ensures Tags(At(r, subtotal).children) == Tags(RemoveWhileIterating(At(total, subtotal).children, PERCENT))
    ensures (forall j :: 0 <= j < |At(r, subtotal).children| ==> At(r, subtotal).children[j].tag != PERCENT)
            <==> !AdjacentMatches(At(total, subtotal).children, PERCENT)
  {
    var cs := At(total, subtotal).children;
    var t1 := WithoutPercents(total, subtotal);
    assert ShapeOf(At(r, subtotal)) == ShapeOf(At(t1, subtotal));
    SameShapeChildren(At(r, subtotal), At(t1, subtotal));
    var kept := RemoveWhileIterating(cs, PERCENT);
    assert At(t1, subtotal).children == kept;
    assert Tags(At(r, subtotal).children) == Tags(kept);
    if AdjacentMatches(cs, PERCENT) {
      RemoveWhileIteratingLeavesMatch(cs, PERCENT);
      var j :| 0 <= j < |kept| && kept[j].tag == PERCENT;
      assert At(r, subtotal).children[j].tag == PERCENT;
    } else {
      RemoveWhileIteratingExact(cs, PERCENT);
    }
  }

  /** The children of the subtotal keep their tags through the category rewrite. */
  lemma TotalEditsKeepTags(total: Node, subtotal: Path, category: Path)
    requires ValidPath(total, subtotal)
    requires FindBelow(WithoutPercents(total, subtotal), subtotal, TAX_CATEGORY) == Some(category)
    ensures var t1 := WithoutPercents(total, subtotal);
      var o := Within(t1, category, RewriteTaxCategory(At(t1, category)));
      o.Done? ==>
        ValidPath(o.tree, subtotal) &&
        Tags(At(o.tree, subtotal).children) == Tags(RemoveWhileIterating(At(total, subtotal).children, PERCENT)) &&
        ((forall j :: 0 <= j < |At(o.tree, subtotal).children| ==> At(o.tree, subtotal).children[j].tag != PERCENT)
         <==> !AdjacentMatches(At(total, subtotal).children, PERCENT))
  {
    var t1 := WithoutPercents(total, subtotal);
    var o := Within(t1, category, RewriteTaxCategory(At(t1, category)));
    if o.Done? {
      SubtotalTags(total, subtotal, o.tree);
    }
  }

  /**
   * After `convert_tax_total` the subtotal holds, tag for tag, the children the Percent
   * loop leaves; no Percent is left exactly when no two Percents were adjacent.
   */
  lemma TaxTotalRemovesPercents(total: Node, subtotal: Path, category: Path)
    requires FindBelow(total, [], TAX_SUBTOTAL) == Some(subtotal)
    requires FindBelow(WithoutPercents(total, subtotal), subtotal, TAX_CATEGORY) == Some(category)
    requires TaxTotalSteps(total).Done?
    ensures var r := TaxTotalSteps(total).tree;
      ValidPath(r, subtotal) &&
      Tags(At(r, subtotal).children) == Tags(RemoveWhileIterating(At(total, subtotal).children, PERCENT)) &&
      ((forall j :: 0 <= j < |At(r, subtotal).children| ==> At(r, subtotal).children[j].tag != PERCENT)
       <==> !AdjacentMatches(At(total, subtotal).children, PERCENT))
  {
    TaxTotalUnfold(total, subtotal, category);
    TotalEditsKeepTags(total, subtotal, category);
  }

  /** The tax total edits, applied to their own result with no Percent left, find the same elements and change nothing. */
  lemma TotalEditsStable(total: Node, subtotal: Path, category: Path)
    requires FindBelow(total, [], TAX_SUBTOTAL) == Some(subtotal)
    requires FindBelow(WithoutPercents(total, subtotal), subtotal, TAX_CATEGORY) == Some(category)
    requires !AdjacentMatches(At(total, subtotal).children, PERCENT)
    ensures var t1 := WithoutPercents(total, subtotal);
      var o := Within(t1, category, RewriteTaxCategory(At(t1, category)));
      o.Done? ==>
        FindBelow(o.tree, [], TAX_SUBTOTAL) == Some(subtotal) &&
        WithoutPercents(o.tree, subtotal) == o.tree &&
        FindBelow(o.tree, subtotal, TAX_CATEGORY) == Some(category) &&
        Within(o.tree, category, RewriteTaxCategory(At(o.tree, category))) == o
  {
    var t1 := WithoutPercents(total, subtotal);
    var o := Within(t1, category, RewriteTaxCategory(At(t1, category)));
    if o.Done? {
      var r := o.tree;
      TotalEditsKeepTags(total, subtotal, category);
      FindBelowRoot(total, TAX_SUBTOTAL);
      FindBelowRoot(t1, TAX_SUBTOTAL);
      FindPut(total, TAX_SUBTOTAL, subtotal, RemovePercent(At(total, subtotal)));
      SameShapeFind(t1, r, [], TAX_SUBTOTAL);
      RemoveWhileIteratingNoMatch(At(r, subtotal).children, PERCENT);
      assert RemovePercent(At(r, subtotal)) == At(r, subtotal);
      PutAt(r, subtotal);
      SameShapeFind(t1, r, subtotal, TAX_CATEGORY);
      TaxCategoryIdempotent(At(t1, category));
      PutAt(r, category);
    }
  }

  /**
   * Running the tax total edits on their own result changes nothing, provided the first
   * run's Percent loop skipped no Percent.
   */
  lemma TaxTotalIdempotent(total: Node)
    requires TaxTotalSteps(total).Done?
    requires PercentsApart(total)
    ensures TaxTotalSteps(TaxTotalSteps(total).tree) == TaxTotalSteps(total)
  {
    var subtotal := FindBelow(total, [], TAX_SUBTOTAL).value;
    var category := FindBelow(WithoutPercents(total, subtotal), subtotal, TAX_CATEGORY).value;
    TaxTotalUnfold(total, subtotal, category);
    TotalEditsStable(total, subtotal, category);
    TaxTotalUnfold(TaxTotalSteps(total).tree, subtotal, category);
  }

  /** The subtotal of the invoice's tax total has no two Percent children in a row. */
  predicate InvoicePercentsApart(invoice: Node)
  {
    match FindBelow(invoice, [], TAX_TOTAL)
    case None => true
    case Some(total) => PercentsApart(At(invoice, total))
  }

  /**
   * `convert_tax_total` applied twice gives the same tree as once, provided the first
   * run's Percent loop skipped no Percent.
   */
  lemma ConvertTaxTotalIdempotent(invoice: Node)
    requires ConvertTaxTotal(invoice).Done?
    requires InvoicePercentsApart(invoice)
    ensures ConvertTaxTotal(ConvertTaxTotal(invoice).tree) == ConvertTaxTotal(invoice)
  {
    var total := FindBelow(invoice, [], TAX_TOTAL).value;
    var t := At(invoice, total);
    var edited := TaxTotalSteps(t).tree;
    var r := Put(invoice, total, edited);
    assert ConvertTaxTotal(invoice) == Done(r);
    FindBelowRoot(invoice, TAX_TOTAL);
    FindPut(invoice, TAX_TOTAL, total, edited);
    FindBelowRoot(r, TAX_TOTAL);
    TaxTotalIdempotent(t);
    PutPut(invoice, total, edited, edited);
  }

  // ---------------------------------------------------------------------------
  // The invoice line (lines 157-209).
  // ---------------------------------------------------------------------------

  /** Removing the child at `i` removes one occurrence of its tag. */
  lemma TagsOfRemove(cs: seq<Node>, i: nat)
    requires i < |cs|
    ensures multiset(Tags(cs[..i] + cs[i + 1..])) == multiset(Tags(cs)) - multiset{cs[i].tag}
  {
    var s := Tags(cs);
    assert Tags(cs[..i] + cs[i + 1..]) == s[..i] + s[i + 1..];
    assert s == s[..i] + [s[i]] + s[i + 1..];
  }

  /** Inserting `x` at `k` adds one occurrence of its tag. */
  lemma TagsOfInsert(cs: seq<Node>, k: nat, x: Node)
    requires k <= |cs|
    ensures multiset(Tags(cs[..k] + [x] + cs[k..])) == multiset(Tags(cs)) + multiset{x.tag}
  {
    var s := Tags(cs);
    assert Tags(cs[..k] + [x] + cs[k..]) == s[..k] + [x.tag] + s[k..];
    assert s == s[..k] + s[k..];
  }

  lemma TagsOfSameShape(a: Node, b: Node)
    requires ShapeOf(a) == ShapeOf(b)
    ensures Tags(a.children) == Tags(b.children)
  {
    SameShapeChildren(a, b);
  }

  /** The item `convert_invoice_line` builds: a name, then the classified tax category. */
  predicate IsClassifiedItem(x: Node)
  {
    |x.children| == 2 && x == ClassifiedItem(x.children[1].children)
  }

  /** Where the tax total at child `t` of `n` children sits once the item is inserted at index 3. */
  function ShiftedIndex(n: nat, t: nat): nat
  {
    if InsertIndex(3, n) <= t then t + 1 else t
  }

  /** When the move succeeds, the tax total was a direct child and the line is the insertion followed by the removal. */
  lemma MoveUnfold(line: Node, total: Path, category: Path)
    requires ValidPath(line, total) && ValidPath(line, category)
    ensures var o := MoveCategoryIntoItem(line, total, category);
      o.Done? ==>
        |total| == 1 && total[0] < |line.children| &&
        var l1 := InsertChild(line, 3, ClassifiedItem(At(line, category).children));
        ShiftedIndex(|line.children|, total[0]) < |l1.children| &&
        o.tree == RemoveChild(l1, ShiftedIndex(|line.children|, total[0]))
  {
    var o := MoveCategoryIntoItem(line, total, category);
    if o.Done? {
      var l1 := InsertChild(line, 3, ClassifiedItem(At(line, category).children));
      assert |total| == 1;
      assert o.tree == RemoveChild(l1, ShiftedIndex(|line.children|, total[0]));
    }
  }

  lemma MoveCategoryEffect(line: Node, total: Path, category: Path)
    requires ValidPath(line, total) && ValidPath(line, category) && At(line, total).tag == TAX_TOTAL
    ensures var o := MoveCategoryIntoItem(line, total, category);
      o.Done? ==>
        SameLabel(o.tree, line) && |o.tree.children| == |line.children| &&
        multiset(Tags(o.tree.children)) == multiset(Tags(line.children)) + multiset{ITEM} - multiset{TAX_TOTAL} &&
        exists i :: 0 <= i < |o.tree.children| && o.tree.children[i] == ClassifiedItem(At(line, category).children)
  {
    MoveUnfold(line, total, category);
    var o := MoveCategoryIntoItem(line, total, category);
    if o.Done? {
      var cs := line.children;
      var t := total[0];
      var item := ClassifiedItem(At(line, category).children);
      assert total == [t];
      assert At(line, total) == cs[t];
      InsertThenRemove(line, item, t);
      TagsOfRemove(cs, t);
      TagsOfInsert(RemoveChild(line, t).children, ItemIndex(|cs|, t), item);
      assert Tags(cs)[t] == TAX_TOTAL;
    }
  }

  /** With its three lookups resolved, the tax category part of the line edits is the rewrite and the move. */
  lemma LineTaxCategoryUnfold(line: Node, total: Path, subtotal: Path, category: Path)
    requires FindBelow(line, [], TAX_TOTAL) == Some(total)
    requires FindBelow(line, total, TAX_SUBTOTAL) == Some(subtotal)
    requires FindBelow(line, subtotal, TAX_CATEGORY) == Some(category)
    ensures var x := Within(line, category, RewriteTaxCategory(At(line, category)));
      (x.Done? ==> ValidPath(x.tree, total) && ValidPath(x.tree, category)) &&
      LineTaxCategory(line) == if x.Raised? then x else MoveCategoryIntoItem(x.tree, total, category)
  {
  }

  /**
   * When the tax category part of the line edits succeeds, the category was rewritten in
   * place, the new item holding the rewritten category's children went in at index 3 (or
   * at the end of a shorter line), and the tax total, a direct child, was removed.
   */
  lemma LineCategoryMoved(line: Node, total: Path, subtotal: Path, category: Path)
    requires FindBelow(line, [], TAX_TOTAL) == Some(total)
    requires FindBelow(line, total, TAX_SUBTOTAL) == Some(subtotal)
    requires FindBelow(line, subtotal, TAX_CATEGORY) == Some(category)
    requires LineTaxCategory(line).Done?
    ensures ValidPath(line, category)
    ensures var c := RewriteTaxCategory(At(line, category));
      c.Done? && |total| == 1 && total[0] < |line.children| &&
      var l1 := InsertChild(Put(line, category, c.tree), 3, ClassifiedItem(c.tree.children));
      ShiftedIndex(|line.children|, total[0]) < |l1.children| &&
      LineTaxCategory(line).tree == RemoveChild(l1, ShiftedIndex(|line.children|, total[0]))
  {
    LineTaxCategoryUnfold(line, total, subtotal, category);
    var c := RewriteTaxCategory(At(line, category));
    assert c.Done?;
    ReplacedBelowRoot(line, category, c.tree);
    MoveUnfold(Put(line, category, c.tree), total, category);
  }

  /** Replacing the element at a path below the root keeps the root's number of children. */
  lemma ReplacedBelowRoot(n: Node, p: Path, x: Node)
    requires ValidPath(n, p) && p != []
    ensures ValidPath(Put(n, p, x), p) && At(Put(n, p, x), p) == x
    ensures |Put(n, p, x).children| == |n.children|
  {
    EditWithin(n, p, x, [], x);
    assert p + [] == p;
    PutBelowRoot(n, p, x);
  }

  /**
   * Where the new item ends up once the tax total at child `t` of `n` children is removed:
   * index 3 when the tax total came after it, index 2 when the tax total was one of the
   * first three children, and the last index of a line that had fewer than three children.
   */
  function ItemIndex(n: nat, t: nat): (r: nat)
    ensures t < n ==> r == if n < 3 then n - 1 else if t < 3 then 2 else 3
  {
    if InsertIndex(3, n) <= t then InsertIndex(3, n) else InsertIndex(3, n) - 1
  }

  /** An insertion at `k` followed by the removal of the old element `t`, for `k <= t`. */
  lemma InsertBeforeRemoved(cs: seq<Node>, k: nat, x: Node, t: nat)
    requires k <= t < |cs|
    ensures var ins := cs[..k] + [x] + cs[k..];
      var rem := cs[..t] + cs[t + 1..];
      ins[..t + 1] + ins[t + 2..] == rem[..k] + [x] + rem[k..]
  {
    var ins := cs[..k] + [x] + cs[k..];
    var rem := cs[..t] + cs[t + 1..];
    assert ins[..t + 1] == cs[..k] + [x] + cs[k..t];
    assert ins[t + 2..] == cs[t + 1..];
    assert rem[..k] == cs[..k];
    assert rem[k..] == cs[k..t] + cs[t + 1..];
  }

  /** An insertion at `k` followed by the removal of the old element `t`, for `t < k`. */
  lemma InsertAfterRemoved(cs: seq<Node>, k: nat, x: Node, t: nat)
    requires t < k <= |cs|
    ensures var ins := cs[..k] + [x] + cs[k..];
      var rem := cs[..t] + cs[t + 1..];
      ins[..t] + ins[t + 1..] == rem[..k - 1] + [x] + rem[k - 1..]
  {
    var ins := cs[..k] + [x] + cs[k..];
    var rem := cs[..t] + cs[t + 1..];
    assert ins[..t] == cs[..t];
    assert ins[t + 1..] == cs[t + 1..k] + [x] + cs[k..];
    assert rem[..k - 1] == cs[..t] + cs[t + 1..k];
    assert rem[k - 1..] == cs[k..];
  }

  /** Inserting at index 3 and then removing the old child `t` is removing `t` and then inserting at `ItemIndex`. */
  lemma InsertThenRemove(l: Node, x: Node, t: nat)
    requires t < |l.children|
    ensures var l3 := InsertChild(l, 3, x);
      ShiftedIndex(|l.children|, t) < |l3.children| &&
      RemoveChild(l3, ShiftedIndex(|l.children|, t)) == InsertChild(RemoveChild(l, t), ItemIndex(|l.children|, t), x)
    ensures var r := InsertChild(RemoveChild(l, t), ItemIndex(|l.children|, t), x);
      |r.children| == |l.children| && ItemIndex(|l.children|, t) < |r.children| &&
      r.children[ItemIndex(|l.children|, t)] == x
  {
    var cs := l.children;
    var k := InsertIndex(3, |cs|);
    if k <= t {
      InsertBeforeRemoved(cs, k, x, t);
    } else {
      InsertAfterRemoved(cs, k, x, t);
    }
    assert InsertIndex(ItemIndex(|cs|, t), |cs| - 1) == ItemIndex(|cs|, t);
  }

  /** Editing inside the child at `p[0]` and then removing that child is removing it unedited. */
  lemma RemoveEdited(l: Node, p: Path, y: Node)
    requires ValidPath(l, p) && p != []
    ensures p[0] < |l.children| && RemoveChild(Put(l, p, y), p[0]) == RemoveChild(l, p[0])
  {
    var r := Put(l, p, y);
    PutBelowRoot(l, p, y);
    assert r.children[..p[0]] == l.children[..p[0]];
    assert r.children[p[0] + 1..] == l.children[p[0] + 1..];
  }

  /**
   * Lines 175-208 with the three lookups resolved: how the category rewrite can fail, and
   * otherwise the line as it is left. When the tax total is a direct child, the tax total
   * (which holds the rewritten category) is gone and the new item, holding the rewritten
   * category's children, sits at `ItemIndex`; the line then needs a `Price`.
   */
  lemma LineTaxCategoryResolved(l: Node, total: Path, subtotal: Path, category: Path)
    requires FindBelow(l, [], TAX_TOTAL) == Some(total)
    requires FindBelow(l, total, TAX_SUBTOTAL) == Some(subtotal)
    requires FindBelow(l, subtotal, TAX_CATEGORY) == Some(category)
    ensures ValidPath(l, category)
    ensures var o := LineTaxCategory(l);
      var c := RewriteTaxCategory(At(l, category));
      var item := ClassifiedItem(c.tree.children);
      (c.Raised? ==> o == Raised(Put(l, category, c.tree), c.error)) &&
      (c.Done? && |total| != 1 ==> o == Raised(InsertChild(Put(l, category, c.tree), 3, item), NotAChild(TAX_TOTAL))) &&
      (c.Done? && |total| == 1 ==>
        total[0] < |l.children| &&
        var l4 := InsertChild(RemoveChild(l, total[0]), ItemIndex(|l.children|, total[0]), item);
        o == if Find(l4, PRICE).None? then Raised(l4, Missing(PRICE)) else Done(l4))
  {
    LineTaxCategoryUnfold(l, total, subtotal, category);
    var c := RewriteTaxCategory(At(l, category));
    if c.Done? {
      var l2 := Put(l, category, c.tree);
      ReplacedBelowRoot(l, category, c.tree);
      if |total| == 1 {
        assert category[0] == total[0];
        RemoveEdited(l, category, c.tree);
        MoveExact(l2, l, total, category);
      }
    }
  }

  /** The move on `m`, whose children other than the tax total's are those of `l`. */
  lemma MoveExact(m: Node, l: Node, total: Path, category: Path)
    requires ValidPath(m, total) && ValidPath(m, category) && |total| == 1
    requires total[0] < |m.children| && |m.children| == |l.children|
    requires RemoveChild(m, total[0]) == RemoveChild(l, total[0])
    ensures var item := ClassifiedItem(At(m, category).children);
      var l4 := InsertChild(RemoveChild(l, total[0]), ItemIndex(|l.children|, total[0]), item);
      MoveCategoryIntoItem(m, total, category) == if Find(l4, PRICE).None? then Raised(l4, Missing(PRICE)) else Done(l4)
  {
    var item := ClassifiedItem(At(m, category).children);
    InsertThenRemove(m, item, total[0]);
    var l4 := InsertChild(RemoveChild(l, total[0]), ItemIndex(|l.children|, total[0]), item);
    assert RemoveChild(InsertChild(m, 3, item), ShiftedIndex(|m.children|, total[0])) == l4;
    FindBelowRoot(l4, PRICE);
  }

  /** Lines 175-208: every lookup that can fail, with the error and the tree it leaves. */
  lemma LineTaxCategoryOutcome(l: Node)
    ensures var o := LineTaxCategory(l);
      match FindBelow(l, [], TAX_TOTAL)
      case None => o == Raised(l, Missing(TAX_TOTAL))
      case Some(total) =>
        match FindBelow(l, total, TAX_SUBTOTAL)
        case None => o == Raised(l, Missing(TAX_SUBTOTAL))
        case Some(subtotal) =>
          FindBelow(l, subtotal, TAX_CATEGORY).None? ==> o == Raised(l, Missing(TAX_CATEGORY))
  {
  }

  /**
   * `convert_invoice_line` on the line, up to the tax category part: the item must exist
   * and be a direct child, the invoiced quantity must exist, and the quantity gets its
   * unit codes and nothing else changes before the tax category part runs.
   */
  lemma InvoiceLineOutcome(line: Node)
    ensures var o := InvoiceLineSteps(line);
      match Find(line, ITEM)
      case None => o == Raised(line, Missing(ITEM))
      case Some(item) =>
        if |item| != 1 then o == Raised(line, NotAChild(ITEM))
        else
          item[0] < |line.children| &&
          var l0 := RemoveChild(line, item[0]);
          match Find(l0, INVOICED_QUANTITY)
          case None => o == Raised(l0, Missing(INVOICED_QUANTITY))
          case Some(q) =>
            var l1 := QuantityUnits(l0, q);
            RelabelsOnly(l0, l1, INVOICED_QUANTITY) && ChangesOnlyAt(l0, l1, q) && ValidPath(l1, q) &&
            At(l1, q).text == At(l0, q).text &&
            At(l1, q).attrib == At(l0, q).attrib["unitCode" := UNIT_ONE]["unitCodeListID" := UNECE_REC20] &&
            o == LineTaxCategory(l1)
  {
    match Find(line, ITEM)
    case None =>
    case Some(item) =>
      if |item| == 1 {
        assert item == [item[0]];
        InvoiceLineUnfold(line, item[0]);
        var l0 := RemoveChild(line, item[0]);
        FindBelowRoot(l0, INVOICED_QUANTITY);
        match Find(l0, INVOICED_QUANTITY)
        case None =>
        case Some(q) =>
          QuantityUnitsSet(l0, q);
      }
  }

  /**
   * `convert_invoice_line` on the line, when it succeeds: the item at child `k` is removed,
   * the quantity at `q` gets its unit codes (giving `l1`), and the result is `l1` with the
   * category rewritten, the new item inserted at index 3 and the tax total removed; that is
   * `l1` without its tax total and with the item at `ItemIndex`.
   */
  lemma InvoiceLineExact(line: Node, k: nat, q: Path, total: Path, subtotal: Path, category: Path)
    requires Find(line, ITEM) == Some([k]) && k < |line.children|
    requires Find(RemoveChild(line, k), INVOICED_QUANTITY) == Some(q)
    requires var l1 := QuantityUnits(RemoveChild(line, k), q);
      FindBelow(l1, [], TAX_TOTAL) == Some(total) &&
      FindBelow(l1, total, TAX_SUBTOTAL) == Some(subtotal) &&
      FindBelow(l1, subtotal, TAX_CATEGORY) == Some(category)
    requires InvoiceLineSteps(line).Done?
    ensures var l0 := RemoveChild(line, k);
      var l1 := QuantityUnits(l0, q);
      var r := InvoiceLineSteps(line).tree;
      ValidPath(l1, category) && ValidPath(l1, q) &&
      At(l1, q).attrib == At(l0, q).attrib["unitCode" := UNIT_ONE]["unitCodeListID" := UNECE_REC20] &&
      var c := RewriteTaxCategory(At(l1, category));
      var item := ClassifiedItem(c.tree.children);
      c.Done? && |total| == 1 && total[0] < |l1.children| && l1.children[total[0]].tag == TAX_TOTAL &&
      var l3 := InsertChild(Put(l1, category, c.tree), 3, item);
      ShiftedIndex(|l1.children|, total[0]) < |l3.children| &&
      r == RemoveChild(l3, ShiftedIndex(|l1.children|, total[0])) &&
      r == InsertChild(RemoveChild(l1, total[0]), ItemIndex(|l1.children|, total[0]), item) &&
      ItemIndex(|l1.children|, total[0]) < |r.children| && r.children[ItemIndex(|l1.children|, total[0])] == item
  {
    var l0 := RemoveChild(line, k);
    var l1 := QuantityUnits(l0, q);
    InvoiceLineOutcome(line);
    assert InvoiceLineSteps(line) == LineTaxCategory(l1);
    LineCategoryMoved(l1, total, subtotal, category);
    LineTaxCategoryResolved(l1, total, subtotal, category);
    var c := RewriteTaxCategory(At(l1, category));
    InsertThenRemove(l1, ClassifiedItem(c.tree.children), total[0]);
    ChildAt(l1, total);
  }

  /** Lines 172-173: the invoiced quantity gets the unit code and its code list, nothing else changes. */
  lemma QuantityUnitsSet(line: Node, quantity: Path)
    requires ValidPath(line, quantity)
    ensures var r := QuantityUnits(line, quantity);
      RelabelsOnly(line, r, At(line, quantity).tag) && ChangesOnlyAt(line, r, quantity) && ValidPath(r, quantity) &&
      At(r, quantity).text == At(line, quantity).text &&
      At(r, quantity).attrib == At(line, quantity).attrib["unitCode" := UNIT_ONE]["unitCodeListID" := UNECE_REC20]
  {
    var l0 := SetAt(line, quantity, "unitCode", UNIT_ONE);
    SetAtRelabels(line, quantity, "unitCode", UNIT_ONE);
    EditWithin(line, quantity, SetAttr(At(line, quantity), "unitCode", UNIT_ONE), [], At(line, quantity));
    assert quantity + [] == quantity;
    SetAtRelabels(l0, quantity, "unitCodeListID", UNECE_REC20);
    EditWithin(l0, quantity, SetAttr(At(l0, quantity), "unitCodeListID", UNECE_REC20), [], At(l0, quantity));
    RelabelsOnlyTrans(line, l0, QuantityUnits(line, quantity), At(line, quantity).tag);
    ChangesOnlyAtTrans(line, l0, QuantityUnits(line, quantity), quantity);
  }

  /** The item's removal and the rest, once the item was found as a direct child. */
  lemma InvoiceLineUnfold(line: Node, k: nat)
    requires Find(line, ITEM) == Some([k])
    ensures k < |line.children| && InvoiceLineSteps(line) == LineWithoutItem(RemoveChild(line, k))
  {
    assert DirectChild(line, ITEM) == Found([k]);
  }

  /**
   * `convert_invoice_line` on the line: when it succeeds the line keeps its label, has one
   * child fewer, has lost one tax total (the old item and the new one balance out) and
   * holds the new classified item.
   */
  lemma InvoiceLineRestructured(line: Node)
    ensures var o := InvoiceLineSteps(line);
      o.Done? ==>
        SameLabel(o.tree, line) && |o.tree.children| + 1 == |line.children| &&
        multiset(Tags(o.tree.children)) == multiset(Tags(line.children)) - multiset{TAX_TOTAL} &&
        exists i :: 0 <= i < |o.tree.children| && IsClassifiedItem(o.tree.children[i])
  {
    if InvoiceLineSteps(line).Done? {
      SuccessResolves(line);
      var k := Find(line, ITEM).value[0];
      var l0 := RemoveChild(line, k);
      var q := Find(l0, INVOICED_QUANTITY).value;
      var l1 := QuantityUnits(l0, q);
      var total := FindBelow(l1, [], TAX_TOTAL).value;
      var subtotal := FindBelow(l1, total, TAX_SUBTOTAL).value;
      var category := FindBelow(l1, subtotal, TAX_CATEGORY).value;
      InvoiceLineExact(line, k, q, total, subtotal, category);
      InvoiceLineUnfold(line, k);
      var c := RewriteTaxCategory(At(l1, category));
      TradedTags(line, k, l1, total[0], c.tree.children, InvoiceLineSteps(line).tree);
    }
  }

  /** A successful run found every element it looks up. */
  lemma SuccessResolves(line: Node)
    requires InvoiceLineSteps(line).Done?
    ensures Find(line, ITEM).Some? && |Find(line, ITEM).value| == 1
    ensures var k := Find(line, ITEM).value[0];
      Find(line, ITEM) == Some([k]) && k < |line.children| &&
      var l0 := RemoveChild(line, k);
      Find(l0, INVOICED_QUANTITY).Some? &&
      var l1 := QuantityUnits(l0, Find(l0, INVOICED_QUANTITY).value);
      FindBelow(l1, [], TAX_TOTAL).Some? &&
      FindBelow(l1, FindBelow(l1, [], TAX_TOTAL).value, TAX_SUBTOTAL).Some? &&
      FindBelow(l1, FindBelow(l1, FindBelow(l1, [], TAX_TOTAL).value, TAX_SUBTOTAL).value, TAX_CATEGORY).Some?
  {
    var item := Find(line, ITEM);
    assert item.Some? && |item.value| == 1;
    var k := item.value[0];
    assert item.value == [k];
    InvoiceLineUnfold(line, k);
    var l0 := RemoveChild(line, k);
    var q := Find(l0, INVOICED_QUANTITY).value;
    FindBelowRoot(l0, INVOICED_QUANTITY);
    assert LineWithoutItem(l0) == LineTaxCategory(QuantityUnits(l0, q));
    LineTaxCategoryOutcome(QuantityUnits(l0, q));
  }

  /** Taking out the old item and the tax total and putting in the new item trades one `TaxTotal` away. */
  lemma TradedTags(line: Node, k: nat, l1: Node, t: nat, cs: seq<Node>, r: Node)
    requires k < |line.children| && line.children[k].tag == ITEM
    requires ShapeOf(l1) == ShapeOf(RemoveChild(line, k))
    requires t < |l1.children| && l1.children[t].tag == TAX_TOTAL
    requires r == InsertChild(RemoveChild(l1, t), ItemIndex(|l1.children|, t), ClassifiedItem(cs))
    ensures |r.children| + 1 == |line.children|
    ensures multiset(Tags(r.children)) == multiset(Tags(line.children)) - multiset{TAX_TOTAL}
    ensures exists i :: 0 <= i < |r.children| && IsClassifiedItem(r.children[i])
  {
    var item := ClassifiedItem(cs);
    var i := ItemIndex(|l1.children|, t);
    var rem := RemoveChild(l1, t).children;
    TagsOfSameShape(l1, RemoveChild(line, k));
    assert InsertIndex(i, |rem|) == i;
    assert r.children == rem[..i] + [item] + rem[i..];
    TagsSwapped(line.children, k, l1.children, t, i, item);
    assert r.children[i] == item;
    assert IsClassifiedItem(item);
  }

  /** The children's tags once the old item, then the tax total, are out and the new item is in. */
  lemma TagsSwapped(cs: seq<Node>, k: nat, ds: seq<Node>, t: nat, i: nat, x: Node)
    requires k < |cs| && cs[k].tag == ITEM && Tags(ds) == Tags(cs[..k] + cs[k + 1..])
    requires t < |ds| && ds[t].tag == TAX_TOTAL && x.tag == ITEM && i < |ds|
    ensures var rem := ds[..t] + ds[t + 1..];
      |rem[..i] + [x] + rem[i..]| + 1 == |cs| &&
      multiset(Tags(rem[..i] + [x] + rem[i..])) == multiset(Tags(cs)) - multiset{TAX_TOTAL}
  {
    var rem := ds[..t] + ds[t + 1..];
    var m := multiset(Tags(cs));
    TagsOfRemove(cs, k);
    assert |ds| == |Tags(ds)| == |Tags(cs[..k] + cs[k + 1..])| == |cs| - 1;
    TagsOfRemove(ds, t);
    TagsOfInsert(rem, i, x);
    var a := m - multiset{ITEM};
    assert Tags(cs)[k] == ITEM && Tags(ds)[t] == TAX_TOTAL;
    assert multiset(Tags(ds)) == a;
    assert multiset(Tags(rem)) == a - multiset{TAX_TOTAL};
    assert a - multiset{TAX_TOTAL} + multiset{ITEM} == m - multiset{TAX_TOTAL};
  }
}
