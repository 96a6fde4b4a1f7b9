/** The completion provider of client/src/extension.ts: on a line assigning
    `buildkit` it offers `false` and `true`; elsewhere it offers all nine
    attribute items, whatever the document holds. Its insert texts differ from
    the other provider's: some are snippets with a single final cursor stop,
    some are literal strings. */
module ClientExtension {
  import opened Completion

  // The item factories.

  function AuthItem(): Item {
    Item("auth", Property, Some(AuthDoc), Some(Snippet("auth = {\n\t$0\n}")))
  }

  function BuildArgsItem(): Item {
    Item("build_args", Property, Some(BuildArgsDoc), Some(Snippet("build_args = {\n\t$0\n}")))
  }

  function BuildkitItem(): Item {
    Item("buildkit", Property, Some(BuildkitDoc), Some(Plain("buildkit = true")))
  }

  function ContextItem(): Item {
    Item("context", Property, Some(ContextDoc), Some(Plain("context = \".\"")))
  }

  function DisableEntrypointItem(): Item {
    Item("disable_entrypoint", Property, Some(DisableEntrypointDoc), Some(Plain("disable_entrypoint = true")))
  }

  function DockerfileItem(): Item {
    Item("dockerfile", Property, Some(DockerfileDoc), Some(Snippet("dockerfile = \"$0\"")))
  }

  function NoCacheItem(): Item {
    Item("no_cache", Property, Some(NoCacheDoc), Some(Plain("no_cache = false")))
  }

  function PlatformItem(): Item {
    Item("platform", Property, Some(PlatformDoc), Some(Snippet("platform = \"$0\"")))
  }

  function TargetItem(): Item {
    Item("target", Property, Some(TargetDoc), Some(Snippet("target = \"$0\"")))
  }

  /** The attribute items, in the order the provider returns them. */
  const Catalog: seq<Item> := [AuthItem(), BuildArgsItem(), BuildkitItem(), ContextItem(), DisableEntrypointItem(), DockerfileItem(), NoCacheItem(), PlatformItem(), TargetItem()]

  /** What the provider answers for the cursor's line and the document text. */
  function Completions(line: Option<string>, document: string): seq<Item> {
    if InBooleanPosition(line) then BooleanKeywords() else Catalog
  }

  /** The catalog's labels are the nine keys in order, hence pairwise distinct,
      and each item is an attribute-name item. */
  lemma CatalogWellFormed()
    ensures Labels(Catalog) == Keys && Distinct(Labels(Catalog))
    ensures forall i :: 0 <= i < |Catalog| ==> IsAttributeItem(Catalog[i])
  {
    assert Labels(Catalog) == Keys;
    KeysDistinct();
    FirstItemsWellFormed();
    MiddleItemsWellFormed();
    LastItemsWellFormed();
  }

  lemma FirstItemsWellFormed()
    ensures IsAttributeItem(AuthItem()) && IsAttributeItem(BuildArgsItem()) && IsAttributeItem(BuildkitItem())
  {
  }

  lemma MiddleItemsWellFormed()
    ensures IsAttributeItem(ContextItem()) && IsAttributeItem(DisableEntrypointItem()) && IsAttributeItem(DockerfileItem())
  {
  }

  lemma LastItemsWellFormed()
    ensures IsAttributeItem(NoCacheItem()) && IsAttributeItem(PlatformItem()) && IsAttributeItem(TargetItem())
  {
  }

  /** Four of the insert texts are literal strings, not snippets. */
  lemma PlainInsertTexts()
    ensures Catalog[2].insertText == Some(Plain("buildkit = true"))
    ensures Catalog[3].insertText == Some(Plain("context = \".\""))
    ensures Catalog[4].insertText == Some(Plain("disable_entrypoint = true"))
    ensures Catalog[6].insertText == Some(Plain("no_cache = false"))
    ensures forall i :: 0 <= i < |Catalog| && i !in {2, 3, 4, 6} ==> Catalog[i].insertText.value.Snippet?
  {
  }

  /** On a line assigning `buildkit` the answer is the two boolean keywords,
      `false` first. */
  lemma BooleanBranch(line: Option<string>, document: string)
    requires InBooleanPosition(line)
    ensures |Completions(line, document)| == 2
    ensures Completions(line, document)[0].name == "false" && Completions(line, document)[1].name == "true"
    ensures forall x :: x in Completions(line, document) ==> x.kind == Keyword
    ensures forall x :: x in Completions(line, document) ==> x.documentation.None? && x.insertText.None?
  {
  }

  /** Off such a line the answer is every attribute item: labelled by the nine
      keys in order, each an attribute-name item. */
  lemma AttributeBranch(line: Option<string>, document: string)
    requires !InBooleanPosition(line)
    ensures Labels(Completions(line, document)) == Keys
    ensures forall x :: x in Completions(line, document) ==> IsAttributeItem(x)
  {
    CatalogWellFormed();
  }

  /** The answer depends on the line alone, never on the document. */
  lemma DocumentIgnored(line: Option<string>, document: string, other: string)
    ensures Completions(line, document) == Completions(line, other)
  {
  }

  /** The answer always has two items or nine. */
  lemma TwoOrNine(line: Option<string>, document: string)
    ensures |Completions(line, document)| == 2 || |Completions(line, document)| == 9
    ensures |Completions(line, document)| == 2 <==> InBooleanPosition(line)
  {
  }
}
