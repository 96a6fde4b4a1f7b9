/** How the two completion providers relate: they share the boolean-value
    branch, the keys and the documentation, and differ in the insert texts and
    in whether keys the document already assigns are left out. */
module Variants {
  import opened Strings
  import opened Completion
  import Extension
  import ClientExtension

  /** Item by item the catalogs agree on label, kind and documentation, and
      disagree on the insert text of every key. */
  lemma CatalogsDifferOnlyInInsertText()
    ensures |Extension.Catalog| == |ClientExtension.Catalog| == 9
    ensures forall i :: 0 <= i < 9 ==>
      Extension.Catalog[i].name == ClientExtension.Catalog[i].name &&
      Extension.Catalog[i].kind == ClientExtension.Catalog[i].kind &&
      Extension.Catalog[i].documentation == ClientExtension.Catalog[i].documentation
    ensures forall i :: 0 <= i < 9 ==> Extension.Catalog[i].insertText != ClientExtension.Catalog[i].insertText
  {
  }

  /** On a line assigning `buildkit` both providers give the same answer. */
  lemma SameBooleanBranch(line: Option<string>, document: string)
    requires InBooleanPosition(line)
    ensures Extension.Completions(line, document) == ClientExtension.Completions(line, document)
  {
  }

  /** The deduplicating provider offers a subsequence of the labels the
      baseline provider offers, in the same order. */
  lemma DedupOffersSubsequence(line: Option<string>, document: string)
    ensures IsSubsequence(Labels(Extension.Completions(line, document)), Labels(ClientExtension.Completions(line, document)))
  {
    if InBooleanPosition(line) {
      SubsequenceReflexive(Labels(ClientExtension.Completions(line, document)));
    } else {
      Extension.AttributeBranch(line, document);
      Extension.CatalogWellFormed();
      ClientExtension.CatalogWellFormed();
      SubsequenceLabels(Extension.Completions(line, document), Extension.Catalog);
    }
  }

  /** When the document assigns none of the keys, both providers offer the
      same labels in the same order. */
  lemma SameLabelsWithoutAssignments(line: Option<string>, document: string)
    requires forall k :: k in Keys ==> !Includes(document, Assignment(k))
    ensures Labels(Extension.Completions(line, document)) == Labels(ClientExtension.Completions(line, document))
  {
    if !InBooleanPosition(line) {
      Extension.NothingAssignedOffersAll(line, document);
      Extension.CatalogWellFormed();
      ClientExtension.CatalogWellFormed();
    }
  }

  /** The providers genuinely diverge: a document assigning `context` gets
      eight items from one and nine from the other, on every line outside
      the boolean-value branch. */
  lemma ProvidersDiverge(line: Option<string>)
    requires !InBooleanPosition(line)
    ensures |Extension.Completions(line, Extension.ContextDocument)| == 8
    ensures |ClientExtension.Completions(line, Extension.ContextDocument)| == 9
  {
    Extension.ContextAssignedScenario(line);
  }
}
