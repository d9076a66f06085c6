/**
 * Choosing the knowledge-base documents: the names of a folder listing that
 * carry one of the four document extensions, joined to the folder path, in
 * listing order.
 */
module KnowledgeBase {
  import opened Text

  /** The folder both desktop clients read their documents from. */
  const KnowledgeBasePath: string := "./knowledge_base"

  /** What `os.path.exists` and `os.listdir` report for the folder. */
  datatype Folder =
    | Missing                    // `os.path.exists` is false
    | Unlistable(error: string)  // `os.listdir` raises
    | Listed(names: seq<string>) // the entries, in the order `os.listdir` returns them

  /** `name.endswith(('.json', '.txt', '.md', '.pdf'))`. */
  predicate HasDocumentExtension(name: string)
  {
    EndsWith(name, ".json") || EndsWith(name, ".txt") || EndsWith(name, ".md") || EndsWith(name, ".pdf")
  }

  /** `os.path.join(dir, name)` on POSIX: an absolute name replaces the folder. */
  function Join(dir: string, name: string): string
  {
    if |name| > 0 && name[0] == '/' then name
    else if dir == [] || dir[|dir| - 1] == '/' then dir + name
    else dir + "/" + name
  }

  /** The paths queued for upload from the listing `names`, in listing order. */
  function Selected(dir: string, names: seq<string>): seq<string>
  {
    if names == [] then []
    else
      var last := names[|names| - 1];
      Selected(dir, names[..|names| - 1]) + (if HasDocumentExtension(last) then [Join(dir, last)] else [])
  }

  /**
   * The `files_to_upload.append` loop: walks the listing once and appends
   * the joined path of every name with a document extension.
   */
  method CollectFilesToUpload(dir: string, names: seq<string>) returns (files: seq<string>)
    ensures files == Selected(dir, names)
  {
    files := [];
    for i := 0 to |names|
      invariant files == Selected(dir, names[..i])
    {
      assert names[..i + 1][..i] == names[..i];
      if HasDocumentExtension(names[i]) {
        files := files + [Join(dir, names[i])];
      }
    }
    assert names[..|names|] == names;
  }

  /** A path is queued exactly when it is the joined path of some listed name with a document extension. */
  lemma {:induction false} SelectedMembers(dir: string, names: seq<string>, p: string)
    ensures p in Selected(dir, names) <==>
              exists k :: 0 <= k < |names| && HasDocumentExtension(names[k]) && p == Join(dir, names[k])
  {
    if names != [] {
      var init := names[..|names| - 1];
      SelectedMembers(dir, init, p);
      if p in Selected(dir, names) && p !in Selected(dir, init) {
        assert HasDocumentExtension(names[|names| - 1]) && p == Join(dir, names[|names| - 1]);
      }
      if exists k :: 0 <= k < |names| && HasDocumentExtension(names[k]) && p == Join(dir, names[k]) {
        var k :| 0 <= k < |names| && HasDocumentExtension(names[k]) && p == Join(dir, names[k]);
        if k < |names| - 1 {
          assert init[k] == names[k];
        }
      }
    }
  }

  /**
   * Selection keeps listing order: the selection from a listing split in
   * two is the selection from the first part followed by that from the second.
   */
  lemma {:induction false} SelectedConcat(dir: string, a: seq<string>, b: seq<string>)
    ensures Selected(dir, a + b) == Selected(dir, a) + Selected(dir, b)
    decreases |b|
  {
    if b != [] {
      var b' := b[..|b| - 1];
      assert (a + b)[..|a + b| - 1] == a + b';
      SelectedConcat(dir, a, b');
    } else {
      assert a + b == a;
    }
  }

  /** A single listed name is queued if and only if it has a document extension. */
  lemma SelectedSingle(dir: string, name: string)
    ensures Selected(dir, [name]) == if HasDocumentExtension(name) then [Join(dir, name)] else []
  {
    assert [name][..0] == [];
  }

  /** Nothing is queued exactly when no listed name has a document extension. */
  lemma {:induction false} SelectedEmptyIffNoDocument(dir: string, names: seq<string>)
    ensures Selected(dir, names) == [] <==> forall k :: 0 <= k < |names| ==> !HasDocumentExtension(names[k])
  {
    if names != [] {
      var init := names[..|names| - 1];
      SelectedEmptyIffNoDocument(dir, init);
      assert forall k :: 0 <= k < |init| ==> init[k] == names[k];
    }
  }

  /** Every name is queued exactly when every listed name has a document extension. */
  lemma {:induction false} SelectedAllIffAllDocuments(dir: string, names: seq<string>)
    ensures |Selected(dir, names)| <= |names|
    ensures |Selected(dir, names)| == |names| <==> forall k :: 0 <= k < |names| ==> HasDocumentExtension(names[k])
  {
    if names != [] {
      var init, last := names[..|names| - 1], names[|names| - 1];
      SelectedAllIffAllDocuments(dir, init);
      assert Selected(dir, names) == Selected(dir, init) + (if HasDocumentExtension(last) then [Join(dir, last)] else []);
      assert forall k :: 0 <= k < |init| ==> init[k] == names[k];
      assert (forall k :: 0 <= k < |names| ==> HasDocumentExtension(names[k])) <==>
             (forall k :: 0 <= k < |init| ==> HasDocumentExtension(init[k])) && HasDocumentExtension(last);
    }
  }

  /** The extension test looks at the end of the name only. */
  lemma ExtensionExamples()
    ensures HasDocumentExtension("faq.md") && HasDocumentExtension("notes.json")
    ensures !HasDocumentExtension("image.png") && !HasDocumentExtension("a.pdf.bak")
  {
  }

  /** A listed name is appended to the folder path after one separator. */
  lemma JoinExample()
    ensures Join(KnowledgeBasePath, "faq.md") == "./knowledge_base/faq.md"
  {
  }
}
