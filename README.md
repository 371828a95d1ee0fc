# UBL to PEPPOL BIS Billing 3.0 invoice conversion, modelled in Dafny

The system turns a UBL 2.1 invoice into a PEPPOL BIS Billing 3.0 (EN 16931) invoice.
It edits the invoice's XML element tree in place. `create_invoice_elementtree`
(`src/convert.py`) runs six stages in a fixed order:

1. the metadata stage inserts the customization and profile identifiers and sets code
   lists on the invoice type and currency codes;
2. the supplier party stage;
3. the customer party stage. Each party stage adds an enterprise-number endpoint, sets
   code lists and scheme attributes, and adds or edits the legal entity;
4. the payment means stage renames the IBAN and BIC schemes;
5. the document tax total stage rewrites the tax category to the standard rate and drops
   the percentage;
6. the invoice line stage moves the line's tax category into a new classified item.

The code lists are UNCL1001, ISO 4217, ISO 3166-1 alpha-2, UNCL4461, UNCL5305 and
UN/ECE Recommendation 20. The identifiers use scheme 0208, the Belgian enterprise number.

## How it is modelled

- **Trees (`ElementTree.dfy`).** An element is a value `Node(tag, attrib, text, children)`.
  The tag is a namespace-qualified name, compared as a whole. An element inside the tree
  is addressed by a `Path`, the sequence of child indexes from the root.
  - `At(n, p)` reads the element at a path; `Put(n, p, x)` replaces it.
  - `Find(n, t)` is ElementTree's `find('.//t')`: the first proper descendant tagged `t`,
    in document order.
  - `FindBelow(n, base, t)` is the same search under the element at `base`, returned as
    a path from the root.
  - `InsertChild` clamps its index the way Python's `list.insert` does.
  - The class `Document` holds the tree in a mutable field `root` and offers the in-place
    edits the source uses: `set`, `attrib.pop`, `attrib.clear`, setting `text`,
    `insert`, `remove` and `append`. Each edit is specified by `Put` applied to the
    old root.
- **Constants (`Ubl.dfy`).** The UBL tags, code-list names and fixed texts.
- **Rules (`Rules.dfy`).** Every function of `src/convert.py` as a function from the old
  tree to an `Outcome`, which is either `Done(tree)` or `Raised(tree, error)`.
  - A raised outcome carries the tree as the source leaves it when the exception
    escapes: edits made before the failing statement stay.
  - The errors are:
    - `Missing(tag)`: a `find` returned `None` and the result was used;
    - `MissingAttribute(name)`: `attrib.pop` of an absent key;
    - `NotAChild(tag)`: `remove` of an element that is not a direct child;
    - `Cyclic`: an element appended into its own subtree (see "Left out").
- **Methods (`Convert.dfy`).** The imperative form of the same code. Each function of
  `src/convert.py` is a method on a `Document`, at the path of the element the Python
  function receives.
  - Each method's `ensures` states the new root as `Put(old root, path, r)`, where `r` is
    what the rule of the same name in `Rules` computes, and returns the rule's error.
  - The loops of the source are `while` loops with invariants in these methods:
    `remove_elementtree_as_child_by_tag`, the two remove-while-iterating loops, the two
    first-match code-list loops and the `append` loop of the invoice line.
- **Properties (`Properties.dfy`, `TaxProperties.dfy`, `Pipeline.dfy`).** What each rule
  does, stated over all inputs.

## Model

| member | source | states |
|---|---|---|
| Rules.Need | src/convert.py:101-103 | a found path is valid and leads to an element with the sought tag |
| Rules.DirectChild | src/convert.py:166-168 | `remove` succeeds only on a direct child: the path has length one and names a child with the tag |
| Rules.SetAt | src/convert.py:105 | `set` on one element leaves the tree's shape (tags and nesting) unchanged |
| Rules.PopAt | src/convert.py:328-329 | a successful `attrib.pop` leaves the tree's shape unchanged |
| Rules.AddElementtreeAsChild | src/convert.py:4-11 | the parent keeps its label and old children, and gains `child` as its new last child |
| Rules.RemoveElementtreeAsChildByTag | src/convert.py:14-24 | the parent keeps its label, loses at most one child, and gains none (its children are a sub-bag of the old ones) |
| Rules.RemoveWhileIterating | src/convert.py:136-138 | the loop only shortens the list |
| Rules.RemoveWhileIteratingRemovesOnly | src/convert.py:136-138 | the children left are a sub-bag of the old ones: nothing is added or changed |
| Rules.FirstChild | src/convert.py:247-250 | the index returned is the first direct child with the tag; none means no child has it |
| Rules.SetOnFirstChild | src/convert.py:247-250 | only the first direct child with the tag gets the attribute; every other child, and the parent's label, stay |
| Rules.AddCustomizationId | src/convert.py:212-223 | the customization identifier is inserted at index 1 (index 0 in an empty invoice), and the other children keep their order |
| Rules.AddProfileId | src/convert.py:226-237 | the profile identifier is inserted at index 2 (clamped to the child count), and the other children keep their order |
| Rules.ChangeInvoiceTypeCode | src/convert.py:240-251 | `listID="UNCL1001"` is set on the first direct `InvoiceTypeCode` child only; all else is unchanged |
| Rules.ChangeDocumentCurrencyCode | src/convert.py:254-266 | `listID="ISO4217"` is set on the first direct `DocumentCurrencyCode` child only; all else is unchanged |
| Rules.FindParty | src/convert.py:269-277 | none exactly when no proper descendant is a `Party`; otherwise a valid path to a `Party` that is the first in document order |
| Rules.AddEndpointId | src/convert.py:280-293 | the party keeps its label and gains exactly one child: child 0 is the endpoint identifier, followed by the old children in order |
| Rules.RemoveWebsiteUri | src/convert.py:347-357 | the party keeps its label; its children are a sub-bag of the old ones |
| Rules.ChangeIdentificationCodeListId | src/convert.py:296-312 | raises, leaving the party as it was, exactly when there is no postal address; otherwise the shape is kept; the party keeps its own label in every case |
| Rules.RemoveSchemeIdOfId | src/convert.py:315-330 | without a party tax scheme nothing changes; a successful run keeps the shape; the party keeps its own label in every case |
| Rules.ElectronicMailAddLanguageId | src/convert.py:333-344 | a failure leaves the party as it was; success keeps the shape; the party keeps its own label in every case |
| Rules.ChangePartyLegalEntity | src/convert.py:360-373 | a failure leaves the party as it was; success keeps the shape; the party keeps its own label in every case |
| Rules.AddPartyLegalEntity | src/convert.py:376-398 | with a party tax scheme it always raises and leaves the party as it was; without one it is `add_party_legal_entity_with_endpointid`; the party keeps its own label in every case |
| Rules.AddPartyLegalEntityWithEndpointId | src/convert.py:401-425 | a failure leaves the party as it was; the party keeps its own label in every case |
| Rules.SupplierPartySteps | src/convert.py:66-72 | the party keeps its own label, whether the edits succeed or raise |
| Rules.CustomerPartySteps | src/convert.py:85-91 | the party keeps its own label, whether the edits succeed or raise |
| Rules.ConvertSupplierParty | src/convert.py:57-73 | raises `Missing(AccountingSupplierParty)` on the unchanged invoice when there is no supplier; in every case the invoice keeps its label and its number of children |
| Rules.ConvertCustomerParty | src/convert.py:76-92 | raises `Missing(AccountingCustomerParty)` on the unchanged invoice when there is no customer; in every case the invoice keeps its label and its number of children |
| Rules.RenameScheme | src/convert.py:111-112 | a successful rename keeps the shape |
| Rules.PaymentMeansSteps | src/convert.py:103-121 | a successful run keeps the shape of the payment means |
| Rules.RenameInstitutionScheme | src/convert.py:114-121 | a successful run keeps the shape |
| Rules.ConvertPaymentMeans | src/convert.py:95-123 | raises `Missing(PaymentMeans)` on the unchanged invoice when there are no payment means; in every case the invoice keeps its label and its number of children |
| Rules.RemovePercent | src/convert.py:136-138 | the subtotal keeps its label; its children are a sub-bag of the old ones |
| Rules.TaxTotalSteps | src/convert.py:131-153 | without a `TaxSubtotal` it raises `Missing(TaxSubtotal)` on the unchanged total; in every case the total keeps its label and its number of children |
| Rules.RewriteTaxCategory | src/convert.py:140-153 | a successful rewrite keeps the category's shape |
| Rules.ConvertTaxTotal | src/convert.py:126-154 | raises `Missing(TaxTotal)` on the unchanged invoice when there is no tax total; in every case the invoice keeps its label and its number of children |
| Rules.InvoiceLineSteps | src/convert.py:166-168 | raises `Missing(Item)` without an item, and `NotAChild(Item)` when the first item is not a direct child of the line |
| Rules.QuantityUnits | src/convert.py:172-173 | setting the unit codes keeps the line's shape |
| Rules.LineWithoutItem | src/convert.py:170-208 | without an `InvoicedQuantity` it raises `Missing(InvoicedQuantity)` on the unchanged line; in every case the line keeps its label |
| Rules.LineTaxCategory | src/convert.py:175-208 | without a `TaxTotal` it raises `Missing(TaxTotal)` on the unchanged line; in every case the line keeps its label |
| Rules.MoveCategoryIntoItem | src/convert.py:194-206 | a tax total that is not a direct child raises `NotAChild(TaxTotal)`; the line keeps its label; on success it has as many children as before (one item in, one tax total out) |
| Rules.ConvertInvoiceLine | src/convert.py:157-209 | raises `Missing(InvoiceLine)` on the unchanged invoice when there is no invoice line; in every case the invoice keeps its label and its number of children |
| Rules.AddNs1Children | src/convert.py:43-54 | the invoice keeps its label and gains exactly two children, whether or not the tax total stage raises |
| Rules.CreateInvoiceElementtree | src/convert.py:27-40 | the invoice keeps its label and ends with exactly two more children than it had, whichever stage raises |
| Properties.Without | src/convert.py:136-138 | the reference definition of removing every child with the tag: none remains, and the list never grows |
| Properties.AdjacentCons | src/convert.py:136-138 | two matching children in a row occur at the head or further on |
| Properties.RemoveWhileIteratingKeepsOthers | src/convert.py:136-138 | removing while iterating keeps exactly the non-matching children, in order |
| Properties.RemoveWhileIteratingShrinks | src/convert.py:136-138 | the loop never lengthens the list, and removes at least one child when one matches |
| Properties.RemoveWhileIteratingNoMatch | src/convert.py:354-356 | with no matching child nothing is removed |
| Properties.RemoveWhileIteratingExact | src/convert.py:136-138 | the loop removes every matching child if and only if no two matching children are adjacent |
| Properties.RemoveWhileIteratingLeavesMatch | src/convert.py:354-356 | with two adjacent matches some matching child survives the loop |
| Properties.RemoveWhileIteratingTwice | src/convert.py:136-138 | a second pass changes nothing if and only if no two matches were adjacent |
| Properties.AdjacentPercentsSurvive | src/convert.py:136-138 | two `Percent` children in a row leave one `Percent` behind |
| Properties.RemoveByTagRemovesFirst | src/convert.py:14-24 | only the first direct child with the tag is removed; with none the parent is unchanged |
| Properties.AddThenRemoveByTag | src/convert.py:4-24 | adding a child whose tag no other child has, then removing by that tag, restores the parent |
| Properties.MetadataPositions | src/convert.py:49-50 | the customization then profile identifiers come right after the first original child, and the original children keep their order |
| Properties.AddEndpointIdPrepends | src/convert.py:280-293 | the new first child is the `EndpointID` with text kbo and attributes exactly `{schemeID: "0208"}`; removing child 0 restores the party |
| Properties.SetAtRelabels | src/convert.py:105 | `set` changes the element's attribute map by that key alone and keeps its text; the tree keeps its shape, every other element keeps its label, and no element with another tag changes |
| Properties.IdentificationCodeListed | src/convert.py:296-312 | raises without a postal address; otherwise the first identification code under it (if any) gets `listID="ISO3166-1:Alpha2"` and keeps its text, and every other element of the party keeps its label |
| Properties.SchemeIdRemoved | src/convert.py:315-330 | no party tax scheme: unchanged; missing tax scheme or ID: raises; otherwise succeeds if and only if both attributes are present, and then removes exactly `schemeID` and `schemeAgencyID` from the ID, which keeps its text, while every other element keeps its label; it raises `MissingAttribute` for the first one absent |
| Properties.SchemeIdPopped | src/convert.py:328-329 | the two pops in a row remove exactly those two keys, keep the text, change no other element, and fail when either is absent |
| Properties.ElectronicMailTagged | src/convert.py:333-344 | raises without a contact or an electronic mail; otherwise the mail gets `languageID="NL"` and keeps its text, and every other element keeps its label |
| Properties.LegalEntityCountryListed | src/convert.py:360-373 | raises naming the first of legal entity, country and identification code that is missing; otherwise the code gets `listID="ISO3166-1:Alpha2"` and keeps its text, and every other element keeps its label |
| Properties.LegalEntityBeforeLast | src/convert.py:401-425 | the new `PartyLegalEntity` is inserted just before the party's last child, holding the party name's text as `RegistrationName` and the business id as `CompanyID` |
| Properties.LegalEntityNeedsName | src/convert.py:408-410 | raises `Missing(PartyName)` or `Missing(Name)` when either is missing, and succeeds otherwise |
| Properties.LegalEntityFromTaxSchemeFails | src/convert.py:383-395 | with a party tax scheme the legal-entity step always raises and leaves the party as it was |
| Properties.SupplierEndpointStaysFirst | src/convert.py:57-73 | after a successful supplier stage the new endpoint is still the party's first child |
| Properties.IdentificationKeepsEndpoint | src/convert.py:296-312 | the code-list edit keeps the endpoint first |
| Properties.SchemeIdKeepsEndpoint | src/convert.py:315-330 | removing the scheme attributes keeps the endpoint first |
| Properties.CountryKeepsEndpoint | src/convert.py:360-373 | the legal entity's country edit keeps the endpoint first |
| Properties.MailKeepsEndpoint | src/convert.py:333-344 | the mail edit keeps the endpoint first |
| Properties.WebsiteUriRemoved | src/convert.py:347-357 | removing the website URI keeps every other child in order, and removes every `WebsiteURI` child if and only if no two were adjacent |
| Properties.SameShapeNoChild | src/convert.py:347-357 | a tree of the same shape has no child with the tag either |
| Properties.SupplierWebsiteGone | src/convert.py:57-73 | with no two website URIs in a row, a successful supplier party has no `WebsiteURI` child |
| Properties.CustomerEndpointStaysFirst | src/convert.py:76-92 | after a successful customer stage the new endpoint is still the party's first child |
| Properties.LegalEntityKeepsEndpoint | src/convert.py:376-425 | adding the legal entity before the last child keeps the endpoint first |
| Properties.EndpointKept | src/convert.py:280-293 | an edit that only relabels elements of another tag keeps the endpoint first |
| TaxProperties.RenameSchemeEffect | src/convert.py:111-112 | succeeds if and only if `schemeName` is present; then `schemeName` is gone, `schemeID` has the scheme, and the text is kept; otherwise raises `MissingAttribute("schemeName")` on the unchanged tree |
| TaxProperties.RenameSchemeElsewhere | src/convert.py:111-112 | every other element keeps its label |
| TaxProperties.InstitutionSchemeRenamed | src/convert.py:114-121 | once the branch, institution and ID are found, the second half is the BIC rename |
| TaxProperties.PaymentMeansFirstHalf | src/convert.py:103-112 | once the code, account and ID are found, the code gets its list, then the IBAN rename, then the second half |
| TaxProperties.PaymentMeansUnfold | src/convert.py:101-121 | with every lookup resolved, the stage is the code list and two scheme renames |
| TaxProperties.RenameTwice | src/convert.py:107-121 | the two renames succeed if and only if both identifiers have `schemeName` and are different elements; other elements keep their labels |
| TaxProperties.CodeThenRenamesEffect | src/convert.py:103-121 | the final attributes: `listID="UNCL4461"` on the code, `schemeID` IBAN and BIC in place of `schemeName` |
| TaxProperties.PaymentMeansNeedsNodes | src/convert.py:101-121 | each missing lookup raises `Missing` of its tag: the code on the unchanged payment means, the account and its ID after the code list is set, and the branch, institution and institution ID after the IBAN rename; a failed IBAN rename raises its own error |
| TaxProperties.PaymentMeansSucceeds | src/convert.py:101-121 | with every lookup resolved, succeeds if and only if both IDs carry `schemeName` and are distinct |
| TaxProperties.PaymentMeansConverted | src/convert.py:101-121 | on success, `PaymentMeansCode` has `listID="UNCL4461"`, and each of the two IDs has lost `schemeName` and has `schemeID` IBAN or BIC |
| TaxProperties.TaxCategoryUnfold | src/convert.py:140-153 | with its three lookups resolved, the category rewrite succeeds with the two ID edits |
| TaxProperties.CategoryEditsEffect | src/convert.py:142-153 | the category ID has exactly `{schemeID: "UNCL5305"}` and text `S`, the tax scheme ID has no attributes, and only IDs change |
| TaxProperties.TaxCategoryRewritten | src/convert.py:140-153 | raises naming the first missing lookup, keeping the first ID's edit once made; otherwise the final attributes and text as above |
| TaxProperties.TaxCategoryIdempotent | src/convert.py:140-153 | rewriting a rewritten category changes nothing |
| TaxProperties.WithoutPercents | src/convert.py:136-138 | the subtotal path stays valid after the Percent loop |
| TaxProperties.TaxTotalUnfold | src/convert.py:132-153 | with the subtotal and category found, the stage is the Percent loop then the category rewrite |
| TaxProperties.SubtotalTags | src/convert.py:136-138 | the subtotal's child tags are those the loop leaves; no `Percent` remains if and only if no two were adjacent |
| TaxProperties.TotalEditsKeepTags | src/convert.py:136-153 | the category rewrite does not disturb the subtotal's child tags |
| TaxProperties.TaxTotalRemovesPercents | src/convert.py:126-154 | on success, the subtotal has no `Percent` child if and only if the original had no two in a row; a single one is removed |
| TaxProperties.TotalEditsStable | src/convert.py:126-154 | after one run every lookup finds the same elements again and the rewrite is a fixed point |
| TaxProperties.TaxTotalIdempotent | src/convert.py:126-154 | inside the tax total, a second run equals the first when no two Percents were adjacent |
| TaxProperties.ConvertTaxTotalIdempotent | src/convert.py:38 | `convert_tax_total` applied twice in a row equals one application when no two Percents were adjacent |
| TaxProperties.TagsOfRemove | src/convert.py:204 | removing a child takes its tag out of the children's tag multiset |
| TaxProperties.TagsOfInsert | src/convert.py:196 | inserting a child adds its tag to the children's tag multiset |
| TaxProperties.TagsOfSameShape | src/convert.py:172-192 | trees of the same shape have the same child tags |
| TaxProperties.MoveUnfold | src/convert.py:194-208 | on success the tax total was a direct child; the line is the item inserted at index 3, followed by the removal of the shifted tax total |
| TaxProperties.MoveCategoryEffect | src/convert.py:194-208 | the line keeps its label and length, trades a `TaxTotal` for an `Item`, and holds the classified item with the category's children |
| TaxProperties.LineTaxCategoryUnfold | src/convert.py:175-208 | with its three lookups resolved, the tax category part is the rewrite, then the move |
| TaxProperties.LineCategoryMoved | src/convert.py:175-208 | on success the rewrite succeeded and the tax total is a direct child; the line is the line with the category rewritten in place, then the new item (holding exactly the rewritten category's children) inserted at index 3, or at the end of a shorter line, then the tax total removed at its index after that insert |
| TaxProperties.ReplacedBelowRoot | src/convert.py:179-192 | an edit below the root keeps the root's child count |
| TaxProperties.ItemIndex | src/convert.py:196-204 | the new item's final index, when the tax total was child t of n: n - 1 for a line of fewer than three children, otherwise 2 when the tax total was among the first three, else 3 |
| TaxProperties.InsertBeforeRemoved | src/convert.py:196-204 | inserting at k and then removing the old element t, for k <= t, equals removing t and inserting at k |
| TaxProperties.InsertAfterRemoved | src/convert.py:196-204 | inserting at k and then removing the old element t, for t < k, equals removing t and inserting at k - 1 |
| TaxProperties.InsertThenRemove | src/convert.py:196-204 | `insert(3, item)` and then removing the tax total at child t is removing child t and inserting the item at `ItemIndex`, where the item then sits |
| TaxProperties.RemoveEdited | src/convert.py:179-204 | an edit inside the tax total does not survive the tax total's removal |
| TaxProperties.MoveExact | src/convert.py:194-208 | the move, with the tax total a direct child, leaves the line without its tax total and with the item at `ItemIndex`; it raises `Missing(Price)` on exactly that tree when there is no `Price` |
| TaxProperties.LineTaxCategoryOutcome | src/convert.py:175-179 | a missing `TaxTotal`, `TaxSubtotal` or `TaxCategory` raises `Missing` of that tag on the unchanged line |
| TaxProperties.LineTaxCategoryResolved | src/convert.py:175-208 | with the three lookups resolved: a failed rewrite raises its error on the line with the partly rewritten category; a tax total that is not a direct child raises `NotAChild(TaxTotal)` on the line with the rewritten category and the inserted item; otherwise the line is the old line minus its tax total plus the item with the rewritten category's children at `ItemIndex`, with `Missing(Price)` raised on exactly that tree when there is no `Price` |
| TaxProperties.QuantityUnitsSet | src/convert.py:172-173 | `InvoicedQuantity` gets `unitCode="C62"` and `unitCodeListID="UNECERec20"` and keeps its text; the line keeps its shape and every other element keeps its label |
| TaxProperties.InvoiceLineUnfold | src/convert.py:166-168 | a direct-child item is removed first |
| TaxProperties.InvoiceLineRestructured | src/convert.py:157-209 | on success the line keeps its label, has one child fewer, has lost a `TaxTotal` tag (the old and the new `Item` balance out), and holds an item made of a `Name` and a `ClassifiedTaxCategory`; read off the exact tree of `InvoiceLineExact` |
| TaxProperties.SuccessResolves | src/convert.py:164-179 | a successful run found the item as a direct child, the invoiced quantity, the tax total, the subtotal and the category |
| TaxProperties.TradedTags | src/convert.py:166-204 | removing the old item and the tax total and inserting the new item at `ItemIndex` leaves one child fewer and one `TaxTotal` tag fewer, with the classified item in place |
| TaxProperties.TagsSwapped | src/convert.py:166-204 | on the children's sequences: taking out an `Item`, then a `TaxTotal`, and putting in a new `Item` leaves one child fewer and the tag multiset less exactly one `TaxTotal` |
| TaxProperties.InvoiceLineOutcome | src/convert.py:164-173 | a missing item raises `Missing(Item)` and one that is not a direct child raises `NotAChild(Item)`, on the unchanged line; without an `InvoicedQuantity` the line without its item is raised with `Missing(InvoicedQuantity)`; otherwise the quantity gets `unitCode="C62"` and `unitCodeListID="UNECERec20"`, keeps its text, nothing of another tag changes, and the tax category part runs on that line |
| TaxProperties.InvoiceLineExact | src/convert.py:157-209 | on success, with the lookups resolved on l1 (the line without its item, with the quantity's unit codes): the result is l1 with the category rewritten, the item inserted at index 3 and the tax total removed; equally, l1 without its tax total and with the item holding the rewritten category's children at `ItemIndex` |
| PipelineProperties.WithinKeepsLeaf | src/convert.py:27-40 | an edit inside a subtree tagged `t` leaves a leaf child of the root not tagged `t` alone |
| PipelineProperties.SupplierKeepsLeaf | src/convert.py:57-73 | the supplier stage leaves such a root child alone |
| PipelineProperties.CustomerKeepsLeaf | src/convert.py:76-92 | the customer stage leaves such a root child alone |
| PipelineProperties.PaymentMeansKeepsLeaf | src/convert.py:95-123 | the payment means stage leaves such a root child alone |
| PipelineProperties.TaxTotalKeepsLeaf | src/convert.py:126-154 | the tax total stage leaves such a root child alone |
| PipelineProperties.InvoiceLineKeepsLeaf | src/convert.py:157-209 | the invoice line stage leaves such a root child alone |
| PipelineProperties.KeepsMetadataThen | src/convert.py:27-40 | a stage that keeps root children 1 and 2 keeps the metadata |
| PipelineProperties.Ns1PlacesMetadata | src/convert.py:43-54 | after the metadata stage, root child 1 is `CustomizationID` with the EN 16931 / PEPPOL text and child 2 is `ProfileID` with the billing profile text |
| PipelineProperties.CreateInvoicePlacesMetadata | src/convert.py:27-40 | after the whole conversion, whichever stage stops it, children 1 and 2 are still the customization and profile identifiers, the root keeps its label, and it has exactly two more children |
| Convert.AddElementtreeAsChild | src/convert.py:4-11 | the new root is the rule applied at the parent's path |
| Convert.RemoveElementtreeAsChildByTag | src/convert.py:14-24 | the loop finds the first direct child with the tag and removes it; the new root is the rule at the parent |
| Convert.SetOnFirstChild | src/convert.py:247-250 | the scan over direct children sets the attribute on the first match only |
| Convert.RemoveWhileIterating | src/convert.py:136-138 | the Python loop, including the skipped element after each removal, equals `Rules.RemoveWhileIterating` |
| Convert.AddCustomizationId | src/convert.py:212-223 | the root becomes `Rules.AddCustomizationId` of the old root |
| Convert.AddProfileId | src/convert.py:226-237 | the root becomes `Rules.AddProfileId` of the old root |
| Convert.ChangeInvoiceTypeCode | src/convert.py:240-251 | the root becomes `Rules.ChangeInvoiceTypeCode` of the old root |
| Convert.ChangeDocumentCurrencyCode | src/convert.py:254-266 | the root becomes `Rules.ChangeDocumentCurrencyCode` of the old root |
| Convert.AddNs1Children | src/convert.py:43-54 | the root and the error are those of `Rules.AddNs1Children` |
| Convert.AddEndpointId | src/convert.py:280-293 | the party becomes `Rules.AddEndpointId` of it |
| Convert.RemoveWebsiteUri | src/convert.py:347-357 | the party becomes `Rules.RemoveWebsiteUri` of it |
| Convert.ChangeIdentificationCodeListId | src/convert.py:296-312 | the party and the error are those of the rule |
| Convert.RemoveSchemeIdOfId | src/convert.py:315-330 | the party and the error are those of the rule |
| Convert.PopAt | src/convert.py:328-329 | `attrib.pop` in place, raising `MissingAttribute` on an absent key |
| Convert.ElectronicMailAddLanguageId | src/convert.py:333-344 | the party and the error are those of the rule |
| Convert.ChangePartyLegalEntity | src/convert.py:360-373 | the party and the error are those of the rule |
| Convert.AddPartyLegalEntity | src/convert.py:376-398 | the party and the error are those of the rule |
| Convert.AddPartyLegalEntityWithEndpointId | src/convert.py:401-425 | the party and the error are those of the rule |
| Convert.FindParty | src/convert.py:269-277 | returns the first `Party` below the given element, or the `Missing(Party)` failure |
| Convert.ConvertSupplierParty | src/convert.py:57-73 | the invoice and the error are those of the rule |
| Convert.ConvertCustomerParty | src/convert.py:76-92 | the invoice and the error are those of the rule |
| Convert.RenameScheme | src/convert.py:111-112 | pop `schemeName`, then set `schemeID`, as the rule says |
| Convert.PaymentMeansSteps | src/convert.py:103-121 | the payment means and the error are those of the rule |
| Convert.RenameInstitutionScheme | src/convert.py:114-121 | the payment means and the error are those of the rule |
| Convert.ConvertPaymentMeans | src/convert.py:95-123 | the invoice and the error are those of the rule |
| Convert.RewriteTaxCategory | src/convert.py:140-153 | the category and the error are those of the rule |
| Convert.RemovePercent | src/convert.py:136-138 | the subtotal becomes `Rules.RemovePercent` of it |
| Convert.TaxTotalSteps | src/convert.py:132-153 | the tax total and the error are those of the rule |
| Convert.ConvertTaxTotal | src/convert.py:126-154 | the invoice and the error are those of the rule |
| Convert.InvoiceLineSteps | src/convert.py:166-208 | the line and the error are those of the rule |
| Convert.LineWithoutItem | src/convert.py:170-208 | the line and the error are those of the rule |
| Convert.QuantityUnits | src/convert.py:172-173 | the line becomes `Rules.QuantityUnits` of it |
| Convert.LineTaxCategory | src/convert.py:175-208 | the line and the error are those of the rule |
| Convert.MoveCategoryIntoItem | src/convert.py:194-208 | the line and the error are those of the rule |
| Convert.AddClassifiedItem | src/convert.py:194-202 | the line gets, at index 3, an item with the name and a classified tax category holding the given children |
| Convert.AppendAll | src/convert.py:201-202 | the `append` loop adds the given children, in order, after the old ones |
| Convert.ConvertInvoiceLine | src/convert.py:157-209 | the invoice and the error are those of the rule |
| Convert.CreateInvoiceElementtree | src/convert.py:27-40 | the invoice and the error are those of `Rules.CreateInvoiceElementtree`: the stages in order, stopping at the first error |

## Left out

- The Flask application in `__init__.py`: routes, template rendering, upload, writing `converted.xml` and sending the file. This is network and file I/O.
- `src/io.py`: XML parsing and serialisation, namespace prefixes and console output. The model starts from a parsed tree.
- `main.py`: a script of file I/O with an identity stub and a `write_xml` call with swapped arguments. Nothing in it affects the conversion.
- The `print` calls at `src/convert.py` lines 264 and 305-307. Only the failure on a missing postal address, when line 306 iterates over `None`, is kept.
- The `PartyTaxScheme` branch of `add_party_legal_entity` (lines 383-395). It appends the party into its own descendant, a cycle a finite tree cannot hold, and its new legal entity is never attached. The model raises `Cyclic` there, after the two `append(None)` failures that come first, and leaves the party untouched.
- The `BaseQuantity` lookup at line 208. Its result is unused, so only the failure when `Price` is missing is modelled.
- Tails (text after an element's closing tag) and comments. The conversion never reads or writes them.
- Element identity. Trees are values, so the memory sharing behind ElementTree references is not modelled. Two consequences:
  - the `append` at lines 201-202 copies the category's children into the new item; the source moves the same objects while they stay in the old category, which line 204 then removes along with the tax total, so the resulting trees agree;
  - the model reads the category's children once, before the insert at line 196. The insert does not touch the category, so this is the same sequence of children.
- No transactional rollback. When a stage raises, the edits it has already made stay, as in the source, and `Raised` carries that partly edited tree. It is not the original invoice.
- The rules below have contracts that state only shape, label or length, weaker than what the source does. Each rule's effect is stated by the lemmas named after it:
  - Rules.SetAt: `Properties.SetAtRelabels`.
  - Rules.PopAt: `Properties.SchemeIdPopped`.
  - Rules.RemoveElementtreeAsChildByTag: `Properties.RemoveByTagRemovesFirst`.
  - Rules.RemoveWhileIterating: `Properties.RemoveWhileIteratingKeepsOthers` and `Properties.RemoveWhileIteratingExact`.
  - Rules.RemoveWebsiteUri: `Properties.WebsiteUriRemoved`.
  - Rules.ChangeIdentificationCodeListId: `Properties.IdentificationCodeListed`.
  - Rules.RemoveSchemeIdOfId: `Properties.SchemeIdRemoved`.
  - Rules.ElectronicMailAddLanguageId: `Properties.ElectronicMailTagged`.
  - Rules.ChangePartyLegalEntity: `Properties.LegalEntityCountryListed`.
  - Rules.AddPartyLegalEntityWithEndpointId: `Properties.LegalEntityBeforeLast` and `Properties.LegalEntityNeedsName`.
  - Rules.RenameScheme: `TaxProperties.RenameSchemeEffect`.
  - Rules.RenameInstitutionScheme: `TaxProperties.InstitutionSchemeRenamed`.
  - Rules.PaymentMeansSteps: `TaxProperties.PaymentMeansNeedsNodes`, `TaxProperties.PaymentMeansSucceeds` and `TaxProperties.PaymentMeansConverted`.
  - Rules.RewriteTaxCategory: `TaxProperties.TaxCategoryRewritten`.
  - Rules.RemovePercent and Rules.TaxTotalSteps: `TaxProperties.SubtotalTags` and `TaxProperties.TaxTotalRemovesPercents`.
  - Rules.QuantityUnits: `TaxProperties.QuantityUnitsSet`.
  - Rules.LineWithoutItem, Rules.LineTaxCategory and Rules.MoveCategoryIntoItem: `TaxProperties.InvoiceLineOutcome`, `TaxProperties.LineTaxCategoryOutcome`, `TaxProperties.LineTaxCategoryResolved`, `TaxProperties.MoveExact` and `TaxProperties.InvoiceLineExact`.
- `getchildren()` at `src/convert.py` lines 201 and 424 was removed from ElementTree in Python 3.9, where these lines raise `AttributeError`. The model reads the element's children directly, as the method did in earlier versions.
- TaxProperties.TaxTotalIdempotent and TaxProperties.ConvertTaxTotalIdempotent: proved only when no two `Percent` children of the subtotal are adjacent. With two in a row the first run leaves one `Percent` and the second removes it (`Properties.AdjacentPercentsSurvive`, `Properties.RemoveWhileIteratingTwice`).
- TaxProperties.ConvertTaxTotalIdempotent: states two applications of `convert_tax_total` in a row. In the pipeline the supplier, customer and payment means stages run between the call at line 53 and the one at line 38; the model does not prove that they leave the tax total alone.
