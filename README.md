# Waypoint `build` block completion, modelled in Dafny

This project models the completion provider of a VS Code extension for
Waypoint's HCL configuration files. When the editor asks for completions
inside a `build` block, the provider looks at the text of the cursor's line
and at the whole document text and answers with an ordered list of
completion items. Each item has a label, a kind (`Keyword` or `Property`),
optional documentation and an optional insert text.

- If the cursor's line contains `buildkit =`, the answer is the two keywords
  `false` and `true`, in that order.
- Otherwise the answer is drawn from a fixed catalog of nine attribute items,
  in this order: `auth`, `build_args`, `buildkit`, `context`,
  `disable_entrypoint`, `dockerfile`, `no_cache`, `platform`, `target`.

The repository has two versions of the provider, and they behave
differently. The project models them side by side:

- `src/extension.ts` (module `Extension`) drops the item for key `K` when the
  document text already contains `K =`.
- `client/src/extension.ts` (module `ClientExtension`) always returns all nine
  items. Its insert texts differ: some are snippets with a final `$0` cursor
  stop, and some are literal strings such as `buildkit = true`.

The files are:

- `strings.dfy` (module `Strings`): JavaScript's `includes` as a left-to-right
  scan. `Strings.IncludesIff` proves the scan equal to "occurs at some index".
- `completion.dfy` (module `Completion`): what both providers share. This is
  the item datatype, the boolean-value branch, the nine keys, the
  documentation texts and the subsequence relation. An item names its
  documentation by a `Doc` tag, and `DocText` gives the text of each tag.
  Both providers use the same nine texts.
- `extension.dfy` (module `Extension`): the deduplicating provider.
  `Pending(items, document)` is the specification of the attribute branch.
  `ProvideCompletionItems` is the callback. Its `ensures` ties its result to
  `Completions`, and the lemmas state what that answer is.
- `client_extension.dfy` (module `ClientExtension`): the baseline provider. It
  is a single conditional over array literals, so it is modelled as a pure
  function.
- `variants.dfy` (module `Variants`): how the two providers relate.

The editor's handles become plain data. The cursor's line is an
`Option<string>`: the source reads it through optional chaining
(`text?.includes`), so a line with no text never matches (`None`). The
document is a `string`. Snippet templates are opaque text. An
`InsertText` is tagged `Snippet` or `Plain` to mirror `SnippetString`
against a bare string.

The source writes the attribute branch as nine guarded `push` calls, one per
catalog item in catalog order. Each call tests its own literal text
(`"auth ="`, …, `"target ="`). The model runs the same nine tests in the same
order as a loop over the catalog, in `Extension.PushUnassigned`.
`Extension.CatalogAssignments` proves that each tested text is the item's
label followed by ` =`. That is exactly what the loop tests.

Both providers are functions of their two inputs, so identical inputs give
identical answers. This holds by construction for `Completions`, and
`ProvideCompletionItems`' `ensures` carries it over to the method.

## Model

| member | source | states |
|---|---|---|
| `Strings.IncludesIff` | src/extension.ts:14 | the `includes` scan answers true exactly when the searched text occurs at some index of the string |
| `Extension.CatalogWellFormed` | src/extension.ts:63-164 | the nine item factories are labelled by the keys `auth` … `target` in declaration order; every item is a `Property` whose insert text begins with its own label followed by ` = ` |
| `Extension.CatalogAssignments` | src/extension.ts:28-53 | the nine texts the provider tests (`auth =` … `target =`) are, item by item, the catalog label followed by ` =` |
| `Extension.PushUnassigned` | src/extension.ts:26-56 | walking the items in order and pushing each one whose assignment text the document lacks yields exactly `Pending(items, document)` (loop invariant: what is pushed so far plus what the rest would give is the whole answer) |
| `Extension.ProvideCompletionItems` | src/extension.ts:10-57 | the callback's result is the specified answer: the two boolean keywords on a `buildkit =` line, otherwise the catalog filtered by the document |
| `Extension.PendingMembers` | src/extension.ts:28-54 | an item is in the filtered list exactly when it is in the input list and the document does not include its assignment text |
| `Extension.PendingOrdered` | src/extension.ts:26-56 | the filtered list is a subsequence of its input: survivors keep their relative order |
| `Extension.PendingNoneAssigned` | src/extension.ts:28-54 | if the document includes no item's assignment text, every item survives |
| `Extension.PendingAllAssigned` | src/extension.ts:28-56 | if the document includes every item's assignment text, nothing survives |
| `Extension.PendingOneAssigned` | src/extension.ts:28-54 | if the document assigns exactly the key of item `k`, the answer is every item except `k`, in order |
| `Extension.BooleanBranch` | src/extension.ts:14-24 | on a line containing `buildkit =` the answer is `false` then `true`, both `Keyword`, with no documentation and no insert text (so the label itself is inserted), and is the same for every document |
| `Extension.AttributeBranch` | src/extension.ts:25-56 | on any other line, including a missing one, the answer is a subsequence of the catalog in catalog order, has at most nine items and no repeated label, and every item is an attribute-name `Property` item |
| `Extension.OfferedIffUnassigned` | src/extension.ts:28-54 | on such a line, for each of the nine keys, the key is offered exactly when the document does not contain `key =` |
| `Extension.NothingAssignedOffersAll` | src/extension.ts:28-56 | a document containing none of the nine `K =` texts gets all nine items in catalog order |
| `Extension.EverythingAssignedOffersNone` | src/extension.ts:28-56 | a document containing all nine `K =` texts gets the empty list |
| `Extension.BuildkitLineScenario` | src/extension.ts:14-24 | the line `  buildkit = ` gets the two boolean keywords whatever the document |
| `Extension.EmptyInputsScenario` | src/extension.ts:14-56 | an empty line, or one with no text, together with an empty document gets all nine items in catalog order |
| `Extension.ContextDocumentAssigns` | src/extension.ts:37 | the document `context = "."` contains the assignment text of `context` and of no other key |
| `Extension.ContextAssignedScenario` | src/extension.ts:28-56 | with that document, the answer is the catalog without its `context` item: eight items, in order |
| `ClientExtension.CatalogWellFormed` | client/src/extension.ts:43-138 | the nine factories are labelled by the keys in declaration order, so the labels are pairwise distinct; every item is a `Property` whose insert text begins with its own label followed by ` = ` |
| `ClientExtension.PlainInsertTexts` | client/src/extension.ts:65-116 | the `buildkit`, `context`, `disable_entrypoint` and `no_cache` items insert the literal strings `buildkit = true`, `context = "."`, `disable_entrypoint = true` and `no_cache = false`; the other five insert snippets |
| `ClientExtension.BooleanBranch` | client/src/extension.ts:14-24 | on a line containing `buildkit =` the answer is `false` then `true`, both `Keyword`, with no documentation and no insert text (so the label itself is inserted) |
| `ClientExtension.AttributeBranch` | client/src/extension.ts:25-36 | on any other line the answer is all nine items, labelled `auth` … `target` in that order, each an attribute-name `Property` item |
| `ClientExtension.DocumentIgnored` | client/src/extension.ts:14-37 | the answer never depends on the document text |
| `ClientExtension.TwoOrNine` | client/src/extension.ts:15-36 | the answer has two items exactly on a `buildkit =` line and nine otherwise |
| `Variants.CatalogsDifferOnlyInInsertText` | client/src/extension.ts:43-138 | item by item, the two catalogs agree on label, kind and documentation and differ in the insert text of every key |
| `Variants.SameBooleanBranch` | client/src/extension.ts:14-24 | on a `buildkit =` line both providers give the same answer |
| `Variants.DedupOffersSubsequence` | src/extension.ts:26-56 | the deduplicating provider's labels are always a subsequence, in order, of the baseline provider's labels |
| `Variants.SameLabelsWithoutAssignments` | src/extension.ts:28-54 | for a document containing none of the nine `K =` texts, both providers offer the same labels in the same order |
| `Variants.ProvidersDiverge` | client/src/extension.ts:26-36 | for the document `context = "."` and any line outside the boolean-value branch, the deduplicating provider offers eight items and the baseline provider nine |

## Left out

- `activate` and the call to `registerCompletionItemProvider`, including the `{scheme: "file", language: "hcl"}` selector. This is host registration with no logic of its own.
- The `async` wrapper, and the `TextDocument`, `Position`, `lineAt` and `getText` handles. They become the two inputs: the cursor line's text, absent when the line has none, and the document text.
- What the editor does with snippet placeholders (`$0`, `$1`, `${1|true,false|}`). Templates are carried as opaque strings, tagged snippet or plain.
- The meaning of the documentation texts. They are carried as constant data and have no behaviour.
- Other `CompletionItem` fields that neither provider sets, such as the replacement range and the sort and filter texts.
- Concurrency: each call is independent, and neither provider keeps state between calls.
- Text encoding. Strings are sequences of Unicode characters, while JavaScript strings are sequences of UTF-16 code units, so a line or document holding a lone surrogate has no counterpart here. No answer depends on this, because every searched text (`buildkit =`, `auth =` … `target =`) is ASCII.
