/** The completion provider of src/extension.ts: on a line assigning
    `buildkit` it offers `false` and `true`; elsewhere it offers the nine
    attribute items, leaving out every attribute whose assignment text
    already occurs in the document. */
module Extension {
  import opened Strings
  import opened Completion

  // The item factories. Their insert texts are snippet templates.

  function AuthItem(): Item {
    Item("auth", Property, Some(AuthDoc), Some(Snippet("auth = {\n\t$1\n}")))
  }

  function BuildArgsItem(): Item {
    Item("build_args", Property, Some(BuildArgsDoc), Some(Snippet("build_args = {\n\t\"$1\" = \"$2\"\n}")))
  }

  function BuildkitItem(): Item {
    Item("buildkit", Property, Some(BuildkitDoc), Some(Snippet("buildkit = ${1|true,false|}")))
  }

  function ContextItem(): Item {
    Item("context", Property, Some(ContextDoc), Some(Snippet("context = \"$1\"")))
  }

  function DisableEntrypointItem(): Item {
    Item("disable_entrypoint", Property, Some(DisableEntrypointDoc), Some(Snippet("disable_entrypoint = ${1|true,false|}")))
  }

  function DockerfileItem(): Item {
    Item("dockerfile", Property, Some(DockerfileDoc), Some(Snippet("dockerfile = \"$1\"")))
  }

  function NoCacheItem(): Item {
    Item("no_cache", Property, Some(NoCacheDoc), Some(Snippet("no_cache = ${1|true,false|}")))
  }

  function PlatformItem(): Item {
    Item("platform", Property, Some(PlatformDoc), Some(Snippet("platform = \"${1|linux/arm64,linux/amd64|}\"")))
  }

  function TargetItem(): Item {
    Item("target", Property, Some(TargetDoc), Some(Snippet("target = \"$1\"")))
  }

  /** The attribute items in the order the provider considers them. */
  const Catalog: seq<Item> := [AuthItem(), BuildArgsItem(), BuildkitItem(), ContextItem(), DisableEntrypointItem(), DockerfileItem(), NoCacheItem(), PlatformItem(), TargetItem()]

  /** The catalog's labels are the nine keys, in order, and each item is an
      attribute-name item. */
  lemma CatalogWellFormed()
    ensures Labels(Catalog) == Keys
    ensures forall i :: 0 <= i < |Catalog| ==> IsAttributeItem(Catalog[i])
  {
    assert Labels(Catalog) == Keys;
    FirstItemsWellFormed();
    MiddleItemsWellFormed();
    LastItemsWellFormed();
  }

  lemma FirstItemsWellFormed()
    ensures IsAttributeItem(AuthItem()) && IsAttributeItem(BuildArgsItem()) && IsAttributeItem(BuildkitItem())
  {
  }

  lemma MiddleItemsWellFormed()
    ensures IsAttributeItem(ContextItem()) && IsAttributeItem(DisableEntrypointItem()) && IsAttributeItem(DockerfileItem())
  {
  }

  lemma LastItemsWellFormed()
    ensures IsAttributeItem(NoCacheItem()) && IsAttributeItem(PlatformItem()) && IsAttributeItem(TargetItem())
  {
  }

  /** `item` alone, unless `document` already assigns its key. */
  function Keep(item: Item, document: string): seq<Item> {
    if Includes(document, Assignment(item.name)) then [] else [item]
  }

  /** The items of `items` whose key `document` does not yet assign, in order. */
  function Pending(items: seq<Item>, document: string): seq<Item> {
    if items == [] then [] else Keep(items[0], document) + Pending(items[1..], document)
  }

  /** What the provider answers for the cursor's line and the document text. */
  function Completions(line: Option<string>, document: string): seq<Item> {
    if InBooleanPosition(line) then BooleanKeywords() else Pending(Catalog, document)
  }

  /** The assignment text the provider tests for each catalog item. */
  lemma CatalogAssignments()
    ensures Assignment(Catalog[0].name) == "auth =" && Assignment(Catalog[1].name) == "build_args ="
    ensures Assignment(Catalog[2].name) == "buildkit =" && Assignment(Catalog[3].name) == "context ="
    ensures Assignment(Catalog[4].name) == "disable_entrypoint =" && Assignment(Catalog[5].name) == "dockerfile ="
    ensures Assignment(Catalog[6].name) == "no_cache =" && Assignment(Catalog[7].name) == "platform ="
    ensures Assignment(Catalog[8].name) == "target ="
  {
  }

  /** An item survives the filter exactly when it is in `items` and
      `document` does not include its assignment text. */
  lemma {:induction false} PendingMembers(items: seq<Item>, document: string)
    ensures forall x :: x in Pending(items, document) <==> x in items && !Includes(document, Assignment(x.name))
  {
    if items != [] {
      PendingMembers(items[1..], document);
      assert items == [items[0]] + items[1..];
    }
  }

  /** The filter keeps the survivors in their original order. */
  lemma {:induction false} PendingOrdered(items: seq<Item>, document: string)
    ensures IsSubsequence(Pending(items, document), items)
  {
    if items != [] {
      PendingOrdered(items[1..], document);
      if Includes(document, Assignment(items[0].name)) {
        assert Pending(items, document) == Pending(items[1..], document);
        SubsequenceSkip(Pending(items, document), items);
      } else {
        assert Pending(items, document) == [items[0]] + Pending(items[1..], document);
      }
    }
  }

  /** Nothing assigned yet: every item survives. */
  lemma {:induction false} PendingNoneAssigned(items: seq<Item>, document: string)
    requires forall x :: x in items ==> !Includes(document, Assignment(x.name))
    ensures Pending(items, document) == items
  {
    if items != [] {
      assert items[0] in items;
      PendingNoneAssigned(items[1..], document);
      assert items == [items[0]] + items[1..];
    }
  }

  /** Everything assigned already: no item survives. */
  lemma {:induction false} PendingAllAssigned(items: seq<Item>, document: string)
    requires forall x :: x in items ==> Includes(document, Assignment(x.name))
    ensures Pending(items, document) == []
  {
    if items != [] {
      assert items[0] in items;
      PendingAllAssigned(items[1..], document);
    }
  }

  /** On a line assigning `buildkit` the answer is the two boolean keywords,
      `false` first, whatever the document holds. */
  lemma BooleanBranch(line: Option<string>, document: string, other: string)
    requires InBooleanPosition(line)
    ensures Completions(line, document) == Completions(line, other)
    ensures |Completions(line, document)| == 2
    ensures Completions(line, document)[0].name == "false" && Completions(line, document)[1].name == "true"
    ensures forall x :: x in Completions(line, document) ==> x.kind == Keyword
    ensures forall x :: x in Completions(line, document) ==> x.documentation.None? && x.insertText.None?
  {
  }

  /** Off such a line the answer is drawn from the catalog: in catalog order,
      no label twice, at most nine items, each an attribute-name item. */
  lemma AttributeBranch(line: Option<string>, document: string)
    requires !InBooleanPosition(line)
    ensures IsSubsequence(Completions(line, document), Catalog)
    ensures |Completions(line, document)| <= 9
    ensures Distinct(Labels(Completions(line, document)))
    ensures forall x :: x in Completions(line, document) ==> IsAttributeItem(x)
  {
    var r := Completions(line, document);
    CatalogWellFormed();
    KeysDistinct();
    PendingOrdered(Catalog, document);
    SubsequenceLabels(r, Catalog);
    SubsequenceProperties(Labels(r), Labels(Catalog));
    SubsequenceProperties(r, Catalog);
  }

  /** Off such a line, the item for a key is offered exactly when the document
      does not include that key's assignment text. */
  lemma OfferedIffUnassigned(line: Option<string>, document: string, key: string)
    requires !InBooleanPosition(line) && key in Keys
    ensures key in Labels(Completions(line, document)) <==> !Includes(document, Assignment(key))
  {
    CatalogWellFormed();
    PendingLabels(Catalog, document, key);
  }

  /** A label survives the filter exactly when it labels some item and its
      assignment text is absent. */
  lemma PendingLabels(items: seq<Item>, document: string, key: string)
    ensures key in Labels(Pending(items, document)) <==> key in Labels(items) && !Includes(document, Assignment(key))
  {
    var r := Pending(items, document);
    PendingMembers(items, document);
    if key in Labels(r) {
      var i :| 0 <= i < |r| && Labels(r)[i] == key;
      assert r[i] in r;
      var j :| 0 <= j < |items| && items[j] == r[i];
      assert Labels(items)[j] == key;
    }
    if key in Labels(items) && !Includes(document, Assignment(key)) {
      var i :| 0 <= i < |items| && Labels(items)[i] == key;
      assert items[i] in items;
      var j :| 0 <= j < |r| && r[j] == items[i];
      assert Labels(r)[j] == key;
    }
  }

  /** A document assigning none of the keys gets all nine items, in order. */
  lemma NothingAssignedOffersAll(line: Option<string>, document: string)
    requires !InBooleanPosition(line)
    requires forall k :: k in Keys ==> !Includes(document, Assignment(k))
    ensures Completions(line, document) == Catalog
  {
    CatalogWellFormed();
    forall x | x in Catalog ensures !Includes(document, Assignment(x.name)) {
      var i :| 0 <= i < |Catalog| && Catalog[i] == x;
      assert Labels(Catalog)[i] == x.name;
    }
    PendingNoneAssigned(Catalog, document);
  }

  /** A document assigning every key gets nothing. */
  lemma EverythingAssignedOffersNone(line: Option<string>, document: string)
    requires !InBooleanPosition(line)
    requires forall k :: k in Keys ==> Includes(document, Assignment(k))
    ensures Completions(line, document) == []
  {
    CatalogWellFormed();
    forall x | x in Catalog ensures Includes(document, Assignment(x.name)) {
      var i :| 0 <= i < |Catalog| && Catalog[i] == x;
      assert Labels(Catalog)[i] == x.name;
    }
    PendingAllAssigned(Catalog, document);
  }

  /** A document assigning exactly the key of item `k` gets every other item, in order. */
  lemma {:induction false} PendingOneAssigned(items: seq<Item>, document: string, k: nat)
    requires k < |items| && Includes(document, Assignment(items[k].name))
    requires forall j :: 0 <= j < |items| && j != k ==> !Includes(document, Assignment(items[j].name))
    ensures Pending(items, document) == items[..k] + items[k + 1..]
  {
    if k == 0 {
      PendingFirstAssigned(items, document);
    } else {
      forall j | 0 <= j < |items[1..]| && j != k - 1 ensures !Includes(document, Assignment(items[1..][j].name)) {
        assert items[1..][j] == items[j + 1];
      }
      PendingOneAssigned(items[1..], document, k - 1);
      SplitAround(items, k);
    }
  }

  lemma PendingFirstAssigned(items: seq<Item>, document: string)
    requires 0 < |items| && Includes(document, Assignment(items[0].name))
    requires forall j :: 0 < j < |items| ==> !Includes(document, Assignment(items[j].name))
    ensures Pending(items, document) == items[1..]
  {
    forall x | x in items[1..] ensures !Includes(document, Assignment(x.name)) {
      var j :| 0 <= j < |items[1..]| && items[1..][j] == x;
      assert items[j + 1] == x;
    }
    PendingNoneAssigned(items[1..], document);
  }

  lemma SplitAround(items: seq<Item>, k: nat)
    requires 0 < k < |items|
    ensures items[..k] + items[k + 1..] == [items[0]] + (items[1..][..k - 1] + items[1..][k..])
  {
    assert items[1..][..k - 1] == items[1..k] && items[1..][k..] == items[k + 1..];
    assert items[..k] == [items[0]] + items[1..k];
  }

  /** A line that is just `buildkit = ` after indentation gets the boolean keywords. */
  lemma BuildkitLineScenario(document: string)
    ensures Completions(Some("  buildkit = "), document) == BooleanKeywords()
  {
    assert "  buildkit = "[2..2 + |BuildkitMarker|] == BuildkitMarker;
    IncludesAt("  buildkit = ", BuildkitMarker, 2);
  }

  /** Empty inputs, or a line the editor does not supply, get all nine items. */
  lemma EmptyInputsScenario()
    ensures Completions(Some(""), "") == Catalog
    ensures Completions(None, "") == Catalog
  {
    forall k | k in Keys ensures !Includes("", Assignment(k)) {
      assert |Assignment(k)| > 0;
    }
    NothingAssignedOffersAll(Some(""), "");
    NothingAssignedOffersAll(None, "");
  }

  /** A document holding only the assignment `context = "."`. */
  const ContextDocument: string := "context = \".\""

  /** Of the nine keys, that document assigns `context` (key 3) alone. */
  lemma ContextDocumentAssigns(j: nat)
    requires j < |Keys|
    ensures Includes(ContextDocument, Assignment(Keys[j])) <==> j == 3
  {
    if j == 3 {
      assert ContextDocument[0..|Assignment(Keys[3])|] == Assignment(Keys[3]);
      IncludesAt(ContextDocument, Assignment(Keys[3]), 0);
    } else {
      // A character of the key's assignment text that the document lacks.
      var c := if j == 0 || j == 8 then 'a' else if j <= 2 then 'b' else if j <= 5 then 'd' else if j == 6 then '_' else 'p';
      assert c in Assignment(Keys[j]);
      ExcludedByChar(ContextDocument, Assignment(Keys[j]), c);
    }
  }

  lemma ContextDocumentAssignsCatalog()
    ensures forall j :: 0 <= j < |Catalog| ==> (Includes(ContextDocument, Assignment(Catalog[j].name)) <==> j == 3)
  {
    CatalogWellFormed();
    forall j | 0 <= j < |Catalog| ensures Includes(ContextDocument, Assignment(Catalog[j].name)) <==> j == 3 {
      assert Catalog[j].name == Labels(Catalog)[j];
      ContextDocumentAssigns(j);
    }
  }

  /** A document that assigns only `context` gets the other eight items, in order. */
  lemma ContextAssignedScenario(line: Option<string>)
    requires !InBooleanPosition(line)
    ensures Completions(line, ContextDocument) == Catalog[..3] + Catalog[4..]
    ensures |Completions(line, ContextDocument)| == 8
    ensures "context" !in Labels(Completions(line, ContextDocument))
  {
    ContextDocumentAssignsCatalog();
    PendingOneAssigned(Catalog, ContextDocument, 3);
    OfferedIffUnassigned(line, ContextDocument, "context");
  }

  /** The attribute branch: walks `items` in order and pushes each one whose
      assignment text `document` does not include. */
  method PushUnassigned(items: seq<Item>, document: string) returns (result: seq<Item>)
    ensures result == Pending(items, document)
  {
    result := [];
    for i := 0 to |items|
      invariant Pending(items, document) == result + Pending(items[i..], document)
    {
      assert items[i..][1..] == items[i + 1..];
      if !Includes(document, Assignment(items[i].name)) {
        result := result + [items[i]];
      }
    }
  }

  /** The provider callback. The source spells the attribute branch out as
      nine guarded pushes, one per catalog item in catalog order, each testing
      that item's assignment text (see `CatalogAssignments`); `PushUnassigned`
      performs the same tests and pushes in the same order. */
  method ProvideCompletionItems(line: Option<string>, document: string) returns (result: seq<Item>)
    ensures result == Completions(line, document)
  {
    if line.Some? && Includes(line.value, "buildkit =") {
      return [Item("false", Keyword, None, None), Item("true", Keyword, None, None)];
    }
    result := PushUnassigned(Catalog, document);
  }
}
