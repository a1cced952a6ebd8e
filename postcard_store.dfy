/**
 * The ordered list of image assets owned by the postcard hook: upload placeholders,
 * completion of a file read by placeholder id, generated images, removal, saved edits
 * and reset. The list-level operations are specification functions; the class
 * PostcardImages holds the list and replaces it on every handler, as the hook does.
 */
module PostcardStore {
  import opened Types
  import opened JsStrings

  /** A file chosen in the uploader. Its bytes are opaque here: only the name reaches the store. */
  datatype FileBlob = FileBlob(name: string)

  /** What the load callback of one file closes over: the id of its placeholder and the file's name. */
  datatype PendingDecode = PendingDecode(placeholderId: string, fileName: string)

  /** Some entry of s carries id. */
  ghost predicate HasId(s: seq<ImageAsset>, id: string) {
    exists i :: 0 <= i < |s| && s[i].id == id
  }

  /** No two entries of s share an id. */
  ghost predicate DistinctIds(s: seq<ImageAsset>) {
    forall i, j :: 0 <= i < j < |s| ==> s[i].id != s[j].id
  }

  /** Array.prototype.findIndex on the id: the first index holding id, or -1. */
  function IndexOf(s: seq<ImageAsset>, id: string): (k: int)
    ensures -1 <= k < |s|
    ensures k == -1 <==> !HasId(s, id)
    ensures k >= 0 ==> s[k].id == id && forall j :: 0 <= j < k ==> s[j].id != id
  {
    if s == [] then -1
    else if s[0].id == id then 0
    else
      var k := IndexOf(s[1..], id);
      assert forall j :: 1 <= j < |s| ==> s[j] == s[1..][j - 1];
      if k == -1 then -1 else k + 1
  }

  /** The lookup the load callback performs, as a loop over the list. */
  method FindIndex(s: seq<ImageAsset>, id: string) returns (k: int)
    ensures k == IndexOf(s, id)
  {
    k := 0;
    while k < |s|
      invariant 0 <= k <= |s|
      invariant forall j :: 0 <= j < k ==> s[j].id != id
    {
      if s[k].id == id {
        return;
      }
      k := k + 1;
    }
    k := -1;
  }

  /** Replacing an entry by one with the same id does not move any id's first occurrence. */
  lemma {:induction false} IndexOfSameIdUpdate(s: seq<ImageAsset>, k: nat, e: ImageAsset, id: string)
    requires k < |s| && e.id == s[k].id
    ensures IndexOf(s[k := e], id) == IndexOf(s, id)
  {
    if k > 0 {
      assert s[k := e][1..] == s[1..][k - 1 := e];
      IndexOfSameIdUpdate(s[1..], k - 1, e, id);
    }
  }

  /** An upload placeholder: the file's name, empty payloads, and isProcessing left false. */
  function Placeholder(id: string, file: FileBlob): ImageAsset {
    ImageAsset(id, "", "", file.name, false)
  }

  /** The entry a file read adds when its placeholder is no longer in the list. */
  function FallbackEntry(freshId: string, fileName: string, result: string): ImageAsset {
    ImageAsset(freshId, result, result, fileName, false)
  }

  /**
   * The list after the read of job's file completed with result: the placeholder's
   * payloads are filled in place when it is still present; otherwise a fallback
   * entry with freshId is appended.
   */
  function DecodeCompleted(s: seq<ImageAsset>, job: PendingDecode, result: string, freshId: string): (r: seq<ImageAsset>)
    ensures HasId(s, job.placeholderId) ==> |r| == |s|
    ensures !HasId(s, job.placeholderId) ==> r == s + [FallbackEntry(freshId, job.fileName, result)]
  {
    var k := IndexOf(s, job.placeholderId);
    if k == -1 then s + [FallbackEntry(freshId, job.fileName, result)]
    else s[k := s[k].(originalData := result, currentData := result)]
  }

  /** With the placeholder present, only its two payloads change; its id, name and flag and every other entry stay. */
  lemma DecodeCompletedPresent(s: seq<ImageAsset>, job: PendingDecode, result: string, freshId: string)
    requires HasId(s, job.placeholderId)
    ensures var r := DecodeCompleted(s, job, result, freshId);
      var k := IndexOf(s, job.placeholderId);
      && |r| == |s|
      && r[k].id == s[k].id == job.placeholderId
      && r[k].name == s[k].name && r[k].isProcessing == s[k].isProcessing
      && r[k].originalData == result && r[k].currentData == result
      && forall j :: 0 <= j < |s| && j != k ==> r[j] == s[j]
  {
  }

  /** Completions of two different placeholders that are both present commute. */
  lemma DecodeCompletedCommute(s: seq<ImageAsset>, job1: PendingDecode, result1: string, fresh1: string,
                               job2: PendingDecode, result2: string, fresh2: string)
    requires HasId(s, job1.placeholderId) && HasId(s, job2.placeholderId)
    requires job1.placeholderId != job2.placeholderId
    ensures DecodeCompleted(DecodeCompleted(s, job1, result1, fresh1), job2, result2, fresh2)
         == DecodeCompleted(DecodeCompleted(s, job2, result2, fresh2), job1, result1, fresh1)
  {
    var k1 := IndexOf(s, job1.placeholderId);
    var k2 := IndexOf(s, job2.placeholderId);
    var e1 := s[k1].(originalData := result1, currentData := result1);
    var e2 := s[k2].(originalData := result2, currentData := result2);
    IndexOfSameIdUpdate(s, k1, e1, job2.placeholderId);
    IndexOfSameIdUpdate(s, k2, e2, job1.placeholderId);
    assert s[k1 := e1][k2 := e2] == s[k2 := e2][k1 := e1];
  }

  /** The label of a generated image: "AI Generated: ", the first 15 characters of the prompt, "...". */
  function GeneratedName(prompt: string): (name: string)
    ensures |name| == 17 + Min(15, |prompt|)
    ensures name[..14] == "AI Generated: " && name[|name| - 3..] == "..."
    ensures name[14..|name| - 3] == prompt[..Min(15, |prompt|)]
  {
    "AI Generated: " + PrefixUpTo(prompt, 15) + "..."
  }

  /** A generated image: both payloads set to the returned data URI, never processing. */
  function GeneratedEntry(id: string, base64: string, prompt: string): ImageAsset {
    ImageAsset(id, base64, base64, GeneratedName(prompt), false)
  }

  /** Array.prototype.filter keeping the entries whose id differs from id. */
  function Removed(s: seq<ImageAsset>, id: string): (r: seq<ImageAsset>)
    ensures |r| <= |s|
    ensures forall e :: e in r <==> e in s && e.id != id
  {
    if s == [] then []
    else
      assert s == [s[0]] + s[1..];
      (if s[0].id == id then [] else [s[0]]) + Removed(s[1..], id)
  }

  /** Removal distributes over concatenation: the entries that stay keep their relative order. */
  lemma {:induction false} RemovedAppend(a: seq<ImageAsset>, b: seq<ImageAsset>, id: string)
    ensures Removed(a + b, id) == Removed(a, id) + Removed(b, id)
  {
    if a == [] {
      assert a + b == b;
    } else {
      assert (a + b)[0] == a[0] && (a + b)[1..] == a[1..] + b;
      RemovedAppend(a[1..], b, id);
    }
  }

  /** Removing an id no entry carries changes nothing. */
  lemma {:induction false} RemovedAbsent(s: seq<ImageAsset>, id: string)
    requires !HasId(s, id)
    ensures Removed(s, id) == s
  {
    if s != [] {
      assert !HasId(s[1..], id) by {
        forall j | 0 <= j < |s[1..]| ensures s[1..][j].id != id { assert s[1..][j] == s[j + 1]; }
      }
      RemovedAbsent(s[1..], id);
    }
  }

  /** Removing twice is removing once. */
  lemma RemovedIdempotent(s: seq<ImageAsset>, id: string)
    ensures Removed(Removed(s, id), id) == Removed(s, id)
  {
    RemovedAbsent(Removed(s, id), id);
  }

  /** On a list with distinct ids, removing a present id drops exactly one entry. */
  lemma {:induction false} RemovedPresentDistinct(s: seq<ImageAsset>, id: string)
    requires DistinctIds(s) && HasId(s, id)
    ensures |Removed(s, id)| == |s| - 1
  {
    if s[0].id == id {
      assert !HasId(s[1..], id) by {
        forall j | 0 <= j < |s[1..]| ensures s[1..][j].id != id { assert s[1..][j] == s[j + 1]; }
      }
      RemovedAbsent(s[1..], id);
    } else {
      var i :| 0 <= i < |s| && s[i].id == id;
      assert s[1..][i - 1].id == id;
      RemovedPresentDistinct(s[1..], id);
    }
  }

  /** Array.prototype.map replacing currentData of the entries that carry id. */
  function SavedEdit(s: seq<ImageAsset>, id: string, newData: string): (r: seq<ImageAsset>)
    ensures |r| == |s|
    ensures forall j :: 0 <= j < |s| ==>
      r[j] == if s[j].id == id then s[j].(currentData := newData) else s[j]
  {
    if s == [] then []
    else
      [if s[0].id == id then s[0].(currentData := newData) else s[0]] + SavedEdit(s[1..], id, newData)
  }

  /** Saving an edit for an id no entry carries changes nothing. */
  lemma SavedEditAbsent(s: seq<ImageAsset>, id: string, newData: string)
    requires !HasId(s, id)
    ensures SavedEdit(s, id, newData) == s
  {
  }

  /** A saved edit keeps ids, names, original payloads and flags, so it keeps every id's position. */
  lemma SavedEditKeepsIndex(s: seq<ImageAsset>, id: string, newData: string, other: string)
    ensures IndexOf(SavedEdit(s, id, newData), other) == IndexOf(s, other)
  {
    var r := SavedEdit(s, id, newData);
    var k := IndexOf(s, other);
    assert forall j :: 0 <= j < |s| ==> r[j].id == s[j].id;
    if k == -1 {
      assert !HasId(r, other);
    } else {
      assert r[k].id == other;
    }
  }

  /** Ids from the caller stand in for random ids: fresh means unequal to every id in the list. */
  ghost predicate FreshIds(s: seq<ImageAsset>, ids: seq<string>) {
    && (forall i, j :: 0 <= i < j < |ids| ==> ids[i] != ids[j])
    && (forall i :: 0 <= i < |ids| ==> !HasId(s, ids[i]))
  }

  /** A removed placeholder whose file read completes later comes back as a new entry under a new id. */
  lemma RemovedThenDecoded(s: seq<ImageAsset>, job: PendingDecode, result: string, freshId: string)
    ensures var r := DecodeCompleted(Removed(s, job.placeholderId), job, result, freshId);
      r == Removed(s, job.placeholderId) + [FallbackEntry(freshId, job.fileName, result)]
  {
    assert !HasId(Removed(s, job.placeholderId), job.placeholderId) by {
      var rs := Removed(s, job.placeholderId);
      forall j | 0 <= j < |rs| ensures rs[j].id != job.placeholderId { assert rs[j] in rs; }
    }
  }

  /** The hook's images state. Every handler replaces the whole list. */
  class PostcardImages {
    var images: seq<ImageAsset>

    ghost predicate Valid()
      reads this
    {
      DistinctIds(images)
    }

    constructor ()
      ensures Valid() && images == []
    {
      images := [];
    }

    /**
     * handleUpload: one placeholder per file, appended after the existing entries in file
     * order; returns what each file's load callback closes over.
     */
    method Upload(files: seq<FileBlob>, ids: seq<string>) returns (pending: seq<PendingDecode>)
      requires Valid()
      requires |ids| == |files| && FreshIds(images, ids)
      modifies this
      ensures Valid()
      ensures |images| == |old(images)| + |files| && images[..|old(images)|] == old(images)
      ensures forall i :: 0 <= i < |files| ==> images[|old(images)| + i] == Placeholder(ids[i], files[i])
      ensures |pending| == |files|
      ensures forall i :: 0 <= i < |files| ==> pending[i] == PendingDecode(ids[i], files[i].name)
    {
      var newImages: seq<ImageAsset> := [];
      pending := [];
      for i := 0 to |files|
        invariant |newImages| == i && |pending| == i
        invariant forall j :: 0 <= j < i ==> newImages[j] == Placeholder(ids[j], files[j])
        invariant forall j :: 0 <= j < i ==> pending[j] == PendingDecode(ids[j], files[j].name)
      {
        newImages := newImages + [Placeholder(ids[i], files[i])];
        pending := pending + [PendingDecode(ids[i], files[i].name)];
      }
      var prev := images;
      images := prev + newImages;
      forall i, j | 0 <= i < j < |images| ensures images[i].id != images[j].id {
        if j >= |prev| && i < |prev| {
          assert images[j].id == ids[j - |prev|];
          assert !HasId(prev, ids[j - |prev|]);
        }
      }
    }

    /**
     * The load callback of one file: fills the placeholder's payloads when it is still
     * listed, otherwise appends a fallback entry under freshId.
     */
    method CompleteDecode(job: PendingDecode, result: string, freshId: string)
      requires Valid()
      requires !HasId(images, job.placeholderId) ==> !HasId(images, freshId)
      modifies this
      ensures Valid()
      ensures images == DecodeCompleted(old(images), job, result, freshId)
    {
      var updated := images;
      var targetIndex := FindIndex(images, job.placeholderId);
      if targetIndex == -1 {
        updated := updated + [FallbackEntry(freshId, job.fileName, result)];
      } else {
        updated := updated[targetIndex := updated[targetIndex].(originalData := result, currentData := result)];
      }
      images := updated;
    }

    /** handleGeneratedImage: appends the generated image after every existing entry. */
    method AddGenerated(base64: string, prompt: string, id: string)
      requires Valid() && !HasId(images, id)
      modifies this
      ensures Valid()
      ensures images == old(images) + [GeneratedEntry(id, base64, prompt)]
    {
      images := images + [GeneratedEntry(id, base64, prompt)];
    }

    /** handleRemoveImage. */
    method Remove(id: string)
      requires Valid()
      modifies this
      ensures Valid()
      ensures images == Removed(old(images), id)
      ensures !HasId(images, id)
      ensures HasId(old(images), id) ==> |images| == |old(images)| - 1
    {
      if HasId(images, id) {
        RemovedPresentDistinct(images, id);
      }
      images := Removed(images, id);
      RemovedKeepsDistinct(old(images), id);
      forall j | 0 <= j < |images| ensures images[j].id != id {
        assert images[j] in images;
      }
    }

    /** handleSaveEdit. */
    method SaveEdit(id: string, newData: string)
      requires Valid()
      modifies this
      ensures Valid()
      ensures images == SavedEdit(old(images), id, newData)
    {
      images := SavedEdit(images, id, newData);
    }

    /** resetImages. */
    method Reset()
      modifies this
      ensures Valid() && images == []
    {
      images := [];
    }
  }

  /** Filtering keeps ids distinct. */
  lemma {:induction false} RemovedKeepsDistinct(s: seq<ImageAsset>, id: string)
    requires DistinctIds(s)
    ensures DistinctIds(Removed(s, id))
  {
    if s != [] {
      assert DistinctIds(s[1..]) by {
        forall a, b | 0 <= a < b < |s[1..]| ensures s[1..][a].id != s[1..][b].id {
          assert s[1..][a] == s[a + 1] && s[1..][b] == s[b + 1];
        }
      }
      RemovedKeepsDistinct(s[1..], id);
      var t := Removed(s[1..], id);
      if s[0].id != id {
        forall e | e in t ensures e.id != s[0].id {
          var m :| 0 <= m < |s[1..]| && s[1..][m] == e;
          assert s[m + 1] == e;
        }
        var r := [s[0]] + t;
        forall a, b | 0 <= a < b < |r| ensures r[a].id != r[b].id {
          assert r[b] == t[b - 1] && t[b - 1] in t;
          if a > 0 {
            assert r[a] == t[a - 1];
          }
        }
      }
    }
  }
}
