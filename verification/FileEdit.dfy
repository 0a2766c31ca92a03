/** Strict literal edits of one file: `FileReplaceHandler` and `FileMultiEditHandler`. */
module FileEdit {
  import opened Wrappers
  import opened Strings

  const MAX_EDITS := 100

  datatype Edit = Edit(oldStr: string, newStr: string, replaceAll: Option<bool>, expectedMatches: Option<int>)

  /** `Done` carries the number of replacements of each step, `Failed` the HTTP status. */
  datatype Response = Done(counts: seq<nat>) | Failed(status: int)

  /** Strict semantics: the text occurs, and as often as the caller said, or once, or however often when the
      caller asked for all. */
  predicate Admissible(content: string, e: Edit) {
    && e.oldStr != ""
    && var n := Count(content, e.oldStr);
       && n > 0
       && (match e.expectedMatches
           case Some(m) => n == m
           case None => n == 1 || e.replaceAll == Some(true))
  }

  function Edited(content: string, e: Edit): Option<string> {
    if Admissible(content, e) then Some(ReplaceAll(content, e.oldStr, e.newStr)) else None
  }

  /** Strictness in terms of the text: without a count and without asking for all, an edit passes exactly if its
      text is found at one place only, and that place is then replaced. */
  lemma SingleEditIff(content: string, e: Edit)
    requires e.expectedMatches == None && e.replaceAll != Some(true)
    ensures Edited(content, e).Some? <==> e.oldStr != "" && exists i: nat :: OnlyAt(content, e.oldStr, i)
    ensures forall i: nat :: e.oldStr != "" && OnlyAt(content, e.oldStr, i) ==>
              Edited(content, e) == Some(content[..i] + e.newStr + content[i + |e.oldStr|..])
  {
    hide Count, ReplaceAll, OnlyAt;
    if e.oldStr != "" {
      CountOneIff(content, e.oldStr, e.newStr);
    }
  }

  /** With a count it passes exactly if the text splits into one piece more; asking for all, if into more than
      one. The result is the pieces with the new text between them. */
  lemma CountedEditIff(content: string, e: Edit)
    requires e.oldStr != "" && (e.expectedMatches.Some? || e.replaceAll == Some(true))
    ensures var n := |Pieces(content, e.oldStr)|;
            Edited(content, e) == if n > 1 && (e.expectedMatches.Some? ==> n == e.expectedMatches.value + 1)
                                  then Some(Join(Pieces(content, e.oldStr), e.newStr)) else None
  {
    CountAndReplaceAgree(content, e.oldStr, e.newStr);
  }

  /** The edits one after the other, each on what the ones before left. */
  function AllEdited(content: string, edits: seq<Edit>): Option<string> {
    if edits == [] then Some(content)
    else
      match AllEdited(content, edits[..|edits| - 1])
      case None => None
      case Some(c) => Edited(c, edits[|edits| - 1])
  }

  /** The first edit that is refused, or the number of edits. */
  function FirstRefused(content: string, edits: seq<Edit>): (i: nat)
    ensures i <= |edits|
    ensures i == |edits| <==> AllEdited(content, edits).Some?
    ensures AllEdited(content, edits[..i]).Some?
  {
    if edits == [] then 0
    else
      var n := |edits| - 1;
      var i := FirstRefused(content, edits[..n]);
      assert edits[..n][..i] == edits[..i];
      if i < n || !Edited(AllEdited(content, edits[..n]).value, edits[n]).Some? then i else assert edits[..n + 1] == edits; n + 1
  }

  lemma EditedStep(content: string, edits: seq<Edit>, i: nat)
    requires i < |edits|
    ensures AllEdited(content, edits[..i + 1]) ==
            match AllEdited(content, edits[..i]) case None => None case Some(c) => Edited(c, edits[i])
  {
    assert edits[..i + 1][..i] == edits[..i];
  }

  /** Once an edit is refused, nothing after it succeeds. */
  lemma {:induction false} RefusedStays(content: string, edits: seq<Edit>, i: nat)
    requires i < |edits| && AllEdited(content, edits[..i]).Some? && AllEdited(content, edits[..i + 1]).None?
    ensures FirstRefused(content, edits) == i && AllEdited(content, edits).None?
    decreases |edits|
  {
    hide Edited;
    var n := |edits| - 1;
    if i == n {
      assert edits[..i + 1] == edits;
    } else {
      assert edits[..n][..i] == edits[..i] && edits[..n][..i + 1] == edits[..i + 1];
      RefusedStays(content, edits[..n], i);
    }
  }

  /** What a whole run of edits adds to the length. */
  function Growth(content: string, edits: seq<Edit>): int
    requires AllEdited(content, edits).Some?
  {
    if edits == [] then 0
    else
      var n := |edits| - 1;
      Growth(content, edits[..n])
      + Count(AllEdited(content, edits[..n]).value, edits[n].oldStr) * (|edits[n].newStr| - |edits[n].oldStr|)
  }

  lemma {:induction false} EditedLength(content: string, edits: seq<Edit>)
    requires AllEdited(content, edits).Some?
    ensures |AllEdited(content, edits).value| == |content| + Growth(content, edits)
  {
    if edits != [] {
      var n := |edits| - 1;
      EditedLength(content, edits[..n]);
      ReplaceLength(AllEdited(content, edits[..n]).value, edits[n].oldStr, edits[n].newStr);
    }
  }

  /** Every step's count is that of the content the steps before it left. */
  ghost predicate StepsCounted(content: string, edits: seq<Edit>, counts: seq<nat>) {
    && |counts| <= |edits|
    && forall j :: 0 <= j < |counts| ==>
         && AllEdited(content, edits[..j]).Some? && edits[j].oldStr != ""
         && counts[j] == Count(AllEdited(content, edits[..j]).value, edits[j].oldStr)
  }

  lemma StepCounted(content: string, edits: seq<Edit>, counts: seq<nat>, current: string)
    requires StepsCounted(content, edits, counts) && |counts| < |edits|
    requires AllEdited(content, edits[..|counts|]) == Some(current)
    ensures var e := edits[|counts|];
            && AllEdited(content, edits[..|counts| + 1]) == Edited(current, e)
            && (Edited(current, e).Some? ==> StepsCounted(content, edits, counts + [Count(current, e.oldStr)]))
            && (Edited(current, e).None? ==> FirstRefused(content, edits) == |counts| && AllEdited(content, edits).None?)
  {
    hide AllEdited, FirstRefused, Count, ReplaceAll;
    EditedStep(content, edits, |counts|);
    if Edited(current, edits[|counts|]).None? {
      RefusedStays(content, edits, |counts|);
    }
  }

  lemma NothingEdited(files: map<string, string>, file: string, edits: seq<Edit>)
    requires file in files
    ensures AllEdited(files[file], edits[..0]) == Some(files[file]) && StepsCounted(files[file], edits, [])
  {}

  class Files {
    var files: map<string, string>
    const isProtected: string -> bool

    constructor (files: map<string, string>, isProtected: string -> bool)
      ensures this.files == files && this.isProtected == isProtected
    {
      this.files, this.isProtected := files, isProtected;
    }

    /** `writes` says whether the write at the end succeeds; it is atomic. */
    method FileReplace(file: string, e: Edit, writes: bool) returns (r: Response)
      modifies this
      ensures r.Done? <==> file != "" && !isProtected(file) && file in old(files) && Admissible(old(files)[file], e) && writes
      ensures files == if r.Done? then old(files)[file := ReplaceAll(old(files)[file], e.oldStr, e.newStr)] else old(files)
      ensures r.Done? ==> r.counts == [Count(old(files)[file], e.oldStr)]
      ensures r.Failed? ==>
                && (r.status == 400 <==> file == "" || e.oldStr == "")
                && (r.status == 403 <==> file != "" && e.oldStr != "" && isProtected(file))
                && (r.status == 404 ==> file !in files || Count(files[file], e.oldStr) == 0)
                && (r.status == 422 ==> file in files && Count(files[file], e.oldStr) > 0 && !Admissible(files[file], e))
                && (r.status == 500 ==> file in files && Admissible(files[file], e) && !writes)
                && r.status in {400, 403, 404, 422, 500}
    {
      if file == "" || e.oldStr == "" {
        return Failed(400);
      }
      if isProtected(file) {
        return Failed(403);
      }
      if file !in files {
        return Failed(404);
      }
      var content := files[file];
      var count := Count(content, e.oldStr);
      if count == 0 {
        return Failed(404);
      }
      var replaceAll := e.replaceAll.Some? && e.replaceAll.value;
      if e.expectedMatches.Some? {
        if count != e.expectedMatches.value {
          return Failed(422);
        }
      } else if !replaceAll && count > 1 {
        return Failed(422);
      }
      var newContent := ReplaceAll(content, e.oldStr, e.newStr);
      if !writes {
        return Failed(500);
      }
      files := files[file := newContent];
      r := Done([count]);
    }

    /** All edits or none. On success the file holds the edits applied one after the other, and every step's
        count is that of its own content; a failure leaves the file as it was. */
    method FileMultiEdit(file: string, edits: seq<Edit>, writes: bool) returns (r: Response)
      modifies this
      ensures r.Done? <==> && file != "" && 1 <= |edits| <= 100 && !isProtected(file) && file in old(files)
                           && AllEdited(old(files)[file], edits).Some? && writes
      ensures files == if r.Done? then old(files)[file := AllEdited(old(files)[file], edits).value] else old(files)
      ensures r.Done? ==> |r.counts| == |edits| && StepsCounted(old(files)[file], edits, r.counts)
      ensures r.Failed? && (file == "" || |edits| == 0 || |edits| > 100) ==> r.status == 400
      ensures r.Failed? && file != "" && 1 <= |edits| <= 100 && isProtected(file) ==> r.status == 403
      ensures r.Failed? && file != "" && 1 <= |edits| <= 100 && !isProtected(file) && file !in files ==> r.status == 404
      ensures r.Failed? && file != "" && 1 <= |edits| <= 100 && !isProtected(file) && file in files ==>
                var i := FirstRefused(files[file], edits);
                r.status == if i == |edits| then 500 else if edits[i].oldStr == "" then 400 else 422
    {
      hide AllEdited, FirstRefused, StepsCounted, Count, ReplaceAll;
      if file == "" {
        return Failed(400);
      }
      if |edits| == 0 {
        return Failed(400);
      }
      if |edits| > MAX_EDITS {
        return Failed(400);
      }
      if isProtected(file) {
        return Failed(403);
      }
      if file !in files {
        return Failed(404);
      }
      var content := files[file];
      ghost var first := content;
      NothingEdited(files, file, edits);
      var results: seq<nat> := [];
      for i := 0 to |edits|
        invariant files == old(files) && |results| == i
        invariant AllEdited(first, edits[..i]) == Some(content) && StepsCounted(first, edits, results)
      {
        var edit := edits[i];
        StepCounted(first, edits, results, content);
        if edit.oldStr == "" {
          return Failed(400);
        }
        var count := Count(content, edit.oldStr);
        if count == 0 {
          return Failed(422);
        }
        var replaceAll := edit.replaceAll.Some? && edit.replaceAll.value;
        if edit.expectedMatches.Some? {
          if count != edit.expectedMatches.value {
            return Failed(422);
          }
        } else if !replaceAll && count > 1 {
          return Failed(422);
        }
        content := ReplaceAll(content, edit.oldStr, edit.newStr);
        results := results + [count];
      }
      assert edits[..|edits|] == edits;
      if !writes {
        return Failed(500);
      }
      files := files[file := content];
      r := Done(results);
    }

    /** The same edits sent one by one as `file_replace` calls, stopping at the first refusal: 1 to 100 of
        them all go through exactly when the one multi-edit would, and then leave the same file. If not, the
        ones before the first refused stay done. */
    method OneByOne(file: string, edits: seq<Edit>) returns (ok: bool)
      requires file != "" && !isProtected(file) && file in files
      modifies this
      ensures ok <==> AllEdited(old(files)[file], edits).Some?
      ensures ok ==> files == old(files)[file := AllEdited(old(files)[file], edits).value]
      ensures !ok ==> FirstRefused(old(files)[file], edits) < |edits|
                      && files == old(files)[file := AllEdited(old(files)[file], edits[..FirstRefused(old(files)[file], edits)]).value]
    {
      ghost var first := files[file];
      for i := 0 to |edits|
        invariant AllEdited(first, edits[..i]).Some? && files == old(files)[file := AllEdited(first, edits[..i]).value]
      {
        EditedStep(first, edits, i);
        var r := FileReplace(file, edits[i], true);
        if r.Failed? {
          RefusedStays(first, edits, i);
          return false;
        }
      }
      assert edits[..|edits|] == edits;
      ok := true;
    }
  }
}
