/** What both completion providers for Waypoint `build` blocks share: the
    shape of a completion item, the boolean-value branch, the nine attribute
    keys and their documentation. */
module Completion {
  import opened Strings

  datatype Option<+T> = None | Some(value: T)

  /** The two completion item kinds the providers use. */
  datatype Kind = Keyword | Property

  /** What the editor inserts: a snippet template, whose placeholders the
      editor interprets, or a literal string. Both are opaque text here. */
  datatype InsertText = Plain(text: string) | Snippet(text: string)

  /** A completion item; `name` is the label the editor shows. Items without
      an insert text insert their label; items without documentation show none. */
  datatype Item = Item(name: string, kind: Kind, documentation: Option<Doc>, insertText: Option<InsertText>)

  /** The text whose presence on the cursor's line selects the boolean-value branch. */
  const BuildkitMarker: string := "buildkit ="

  /** The cursor's line is an assignment to `buildkit` in progress. A line the
      editor does not supply (`None`) never matches. */
  predicate InBooleanPosition(line: Option<string>) {
    line.Some? && Includes(line.value, BuildkitMarker)
  }

  /** The boolean-value branch's answer: the keywords `false` and `true`. */
  function BooleanKeywords(): (r: seq<Item>)
    ensures |r| == 2
    ensures r[0].name == "false" && r[1].name == "true"
    ensures forall k :: 0 <= k < 2 ==> r[k].kind == Keyword && r[k].documentation.None? && r[k].insertText.None?
  {
    [Item("false", Keyword, None, None), Item("true", Keyword, None, None)]
  }

  /** The text that marks `key` as already assigned in a document. */
  function Assignment(key: string): string {
    key + " ="
  }

  /** The attribute keys of a `build` block, in the providers' order. */
  const Keys: seq<string> := ["auth", "build_args", "buildkit", "context", "disable_entrypoint", "dockerfile", "no_cache", "platform", "target"]

  function Labels(items: seq<Item>): seq<string> {
    seq(|items|, k requires 0 <= k < |items| => items[k].name)
  }

  predicate Distinct<T(==)>(s: seq<T>) {
    forall i, j :: 0 <= i < j < |s| ==> s[i] != s[j]
  }

  /** An attribute-name item: a property whose insert text starts by
      assigning its own label. */
  predicate IsAttributeItem(item: Item) {
    item.kind == Property && item.insertText.Some? && StartsWith(item.insertText.value.text, item.name + " = ")
  }

  /** `a` is `b` with some elements left out, the rest in their order. */
  predicate IsSubsequence<T(==)>(a: seq<T>, b: seq<T>)
    decreases |b|
  {
    if a == [] then true
    else if b == [] then false
    else if a[0] == b[0] then IsSubsequence(a[1..], b[1..])
    else IsSubsequence(a, b[1..])
  }

  /** A subsequence is no longer than the sequence it is taken from, keeps
      only its elements, and keeps distinct elements distinct. */
  lemma {:induction false} SubsequenceProperties<T>(a: seq<T>, b: seq<T>)
    requires IsSubsequence(a, b)
    ensures |a| <= |b|
    ensures forall x :: x in a ==> x in b
    ensures Distinct(b) ==> Distinct(a)
    decreases |b|
  {
    if a == [] {
    } else if a[0] == b[0] {
      SubsequenceProperties(a[1..], b[1..]);
      assert a == [a[0]] + a[1..];
      if Distinct(b) {
        assert Distinct(b[1..]);
        forall i, j | 0 <= i < j < |a| ensures a[i] != a[j] {
          if i == 0 {
            assert a[j] == a[1..][j - 1];
            assert a[j] in b[1..];
          } else {
            assert a[i] == a[1..][i - 1] && a[j] == a[1..][j - 1];
          }
        }
      }
    } else {
      SubsequenceProperties(a, b[1..]);
    }
  }

  /** Subsequences of items have subsequences of labels. */
  lemma {:induction false} SubsequenceLabels(a: seq<Item>, b: seq<Item>)
    requires IsSubsequence(a, b)
    ensures IsSubsequence(Labels(a), Labels(b))
    decreases |b|
  {
    if a == [] {
    } else if a[0] == b[0] {
      SubsequenceLabels(a[1..], b[1..]);
      assert Labels(a)[1..] == Labels(a[1..]) && Labels(b)[1..] == Labels(b[1..]);
    } else {
      SubsequenceLabels(a, b[1..]);
      assert Labels(b)[1..] == Labels(b[1..]);
      SubsequenceSkip(Labels(a), Labels(b));
    }
  }

  lemma {:induction false} SubsequenceReflexive<T>(a: seq<T>)
    ensures IsSubsequence(a, a)
    decreases |a|
  {
    if a != [] {
      SubsequenceReflexive(a[1..]);
    }
  }

  /** Leaving out one more element of `b` keeps a subsequence one. */
  lemma {:induction false} SubsequenceSkip<T>(a: seq<T>, b: seq<T>)
    requires b != [] && IsSubsequence(a, b[1..])
    ensures IsSubsequence(a, b)
    decreases |b|, 0
  {
    if a != [] && a[0] == b[0] {
      SubsequenceDropHead(a, b[1..]);
    }
  }

  lemma {:induction false} SubsequenceDropHead<T>(a: seq<T>, b: seq<T>)
    requires a != [] && IsSubsequence(a, b)
    ensures IsSubsequence(a[1..], b)
    decreases |b|, 1
  {
    if a[0] == b[0] {
      if a[1..] != [] {
        SubsequenceSkip(a[1..], b);
      }
    } else {
      SubsequenceDropHead(a, b[1..]);
      SubsequenceSkip(a[1..], b);
    }
  }

  /** The documentation an item shows, named by the key it documents; the
      texts are the same in both providers. */
  datatype Doc = AuthDoc | BuildArgsDoc | BuildkitDoc | ContextDoc | DisableEntrypointDoc | DockerfileDoc | NoCacheDoc | PlatformDoc | TargetDoc

  function DocText(doc: Doc): string {
    match doc
    case AuthDoc => "The authentication information to log into the docker repository."
    case BuildArgsDoc => "Build args to pass to docker for the build step.\n\nAn array of strings of build-time variables passed as build-arg to docker for the build step."
    case BuildkitDoc => "If set, use the buildkit builder from Docker."
    case ContextDoc => "Build context path."
    case DisableEntrypointDoc => "If set, the entrypoint binary won't be injected into the image.\n\nThe entrypoint binary is what provides extended functionality such as logs and exec. If it is not injected at build time the expectation is that the image already contains it."
    case DockerfileDoc => "The path to the Dockerfile.\n\nSet this when the Dockerfile is not APP-PATH/Dockerfile."
    case NoCacheDoc => "Do not use cache when building the image.\n\nEnsures a clean image build."
    case PlatformDoc => "Set target platform to build container if server is multi-platform capable.\n\nMust enable Docker buildkit to use the 'platform' flag."
    case TargetDoc => "The target build stage in a multi-stage Dockerfile.\n\nIf buildkit is enabled unused stages will be skipped."
  }

  /** The keys are pairwise distinct. */
  lemma KeysDistinct()
    ensures |Keys| == 9 && Distinct(Keys)
  {
  }
}
