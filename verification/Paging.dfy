// Oversized tool results: the history keeps head and tail, the whole is spilled to a
// content-addressed store and read back window by window
// (server/agent/spill.go, server/agent/state_tools.go, server/agent/compaction.go).
module Paging {
  import opened Strings

  const MAX_WINDOW: int := 6000
  const MAX_SPILLED_RESULT_BYTES: int := 8388608
  const HISTORY_THRESHOLD: int := 8192
  const HISTORY_HEAD: int := 4096
  const HISTORY_TAIL: int := 1024

  // ----- windows of a stored payload -----

  datatype Page = Page(content: string, total: nat, hasMore: bool) | NoPage

  function Min(a: int, b: int): int {
    if a < b then a else b
  }

  /** A limit that is missing, not positive or too large stands for the maximum. */
  function LimitOf(limit: int): (r: int)
    ensures 1 <= r <= MAX_WINDOW
  {
    if limit <= 0 || limit > MAX_WINDOW then MAX_WINDOW else limit
  }

  /** One call of the reading tool. An offset past the end gives an empty page. */
  function PageAt(payload: string, offset: int, limit: int): Page {
    if offset < 0 then NoPage
    else
      var from := Min(offset, |payload|);
      var to := Min(from + LimitOf(limit), |payload|);
      Page(payload[from..to], |payload|, offset + (to - from) < |payload|)
  }

  /**
   * A page holds as many runes as were asked for, or as many as are left if they are fewer; a limit that
   * is not in range asks for the maximum.
   */
  lemma PageHolds(payload: string, offset: nat, limit: int)
    ensures var page := PageAt(payload, offset, limit); var asked := if 0 < limit <= MAX_WINDOW then limit else MAX_WINDOW;
            && page.Page? && page.total == |payload|
            && (offset + asked <= |payload| ==> page.content == payload[offset..offset + asked])
            && (offset <= |payload| < offset + asked ==> page.content == payload[offset..])
            && (offset > |payload| ==> page.content == "")
            && (page.hasMore <==> offset + asked < |payload|)
  {
  }

  /** Reads on from an offset, by the number of runes returned, until there is no more; the n-th read asks for limits(n). */
  function ReadOn(payload: string, offset: nat, limits: nat -> int, n: nat): string
    decreases |payload| - Min(offset, |payload|)
  {
    var page := PageAt(payload, offset, limits(n));
    if !page.hasMore then page.content
    else page.content + ReadOn(payload, offset + |page.content|, limits, n + 1)
  }

  /** Whatever limits are asked for, paging ends and gives the rest of the payload, rune for rune. */
  lemma {:induction false} PagingReadsAll(payload: string, offset: nat, limits: nat -> int, n: nat)
    requires offset <= |payload|
    ensures ReadOn(payload, offset, limits, n) == payload[offset..]
    decreases |payload| - offset
  {
    var page := PageAt(payload, offset, limits(n));
    if page.hasMore {
      var next := offset + |page.content|;
      PagingReadsAll(payload, next, limits, n + 1);
      assert payload[offset..next] + payload[next..] == payload[offset..];
    }
  }

  /** What was read so far, with what reading on gives, is the whole. */
  ghost predicate ReadSoFar(whole: string, done: string, more: bool, offset: nat, limits: nat -> int, n: nat) {
    offset <= |whole| && done + (if more then ReadOn(whole, offset, limits, n) else "") == whole
  }

  lemma NextRead(whole: string, done: string, offset: nat, limits: nat -> int, n: nat)
    requires ReadSoFar(whole, done, true, offset, limits, n)
    ensures var page := PageAt(whole, offset, limits(n)); var next := offset + |page.content|;
            && (page.hasMore ==> next > offset)
            && ReadSoFar(whole, done + page.content, page.hasMore, next, limits, n + 1)
  {
    UnfoldRead(whole, offset, limits, n);
    var page := PageAt(whole, offset, limits(n));
    if page.hasMore {
      Regroup(done, page.content, ReadOn(whole, offset + |page.content|, limits, n + 1));
    } else {
      Regroup(done, page.content, "");
    }
  }

  lemma UnfoldRead(payload: string, offset: nat, limits: nat -> int, n: nat)
    requires offset <= |payload|
    ensures var page := PageAt(payload, offset, limits(n)); var next := offset + |page.content|;
            && next <= |payload| && (page.hasMore ==> next > offset)
            && (page.hasMore ==> ReadOn(payload, offset, limits, n) == page.content + ReadOn(payload, next, limits, n + 1))
            && (!page.hasMore ==> ReadOn(payload, offset, limits, n) == page.content)
  {
  }

  lemma Regroup(a: string, b: string, c: string)
    ensures a + b + c == a + (b + c) && a + b + "" == a + b
  {
  }

  /** How many reads it takes. */
  function Reads(payload: string, offset: nat, limits: nat -> int, n: nat): nat
    decreases |payload| - Min(offset, |payload|)
  {
    var page := PageAt(payload, offset, limits(n));
    if !page.hasMore then 1 else 1 + Reads(payload, offset + |page.content|, limits, n + 1)
  }

  /** With default limits a payload takes one read per maximum of runes begun. */
  lemma {:induction false} DefaultReads(payload: string, offset: nat, limits: nat -> int, n: nat)
    requires offset < |payload| && forall k: nat :: limits(k) <= 0
    ensures MAX_WINDOW * (Reads(payload, offset, limits, n) - 1) < |payload| - offset <= MAX_WINDOW * Reads(payload, offset, limits, n)
    decreases |payload| - offset
  {
    var page := PageAt(payload, offset, limits(n));
    if page.hasMore {
      DefaultReads(payload, offset + |page.content|, limits, n + 1);
    }
  }

  // ----- what stays in the history -----

  datatype Located = Located(id: string) | NotSpilled

  datatype Kept =
    | Whole(content: string)
    | Pruned(original: nat, omitted: nat, head: string, tail: string, full: Located)

  function Prune(content: string, spilled: Located): Kept {
    if |content| <= HISTORY_THRESHOLD then Whole(content)
    else
      Pruned(|content|, |content| - HISTORY_HEAD - HISTORY_TAIL, content[..HISTORY_HEAD], content[|content| - HISTORY_TAIL..], spilled)
  }

  /** In a pruned result head, omitted count and tail account for every rune, and are the ends of the original. */
  lemma PruneAccounts(content: string, spilled: Located)
    ensures match Prune(content, spilled)
            case Whole(c) => c == content
            case Pruned(original, omitted, head, tail, full) =>
              && |head| + omitted + |tail| == original == |content| && omitted > 0
              && exists middle :: |middle| == omitted && content == head + middle + tail
  {
    if |content| > HISTORY_THRESHOLD {
      var middle := content[HISTORY_HEAD..|content| - HISTORY_TAIL];
      assert content == content[..HISTORY_HEAD] + middle + content[|content| - HISTORY_TAIL..];
    }
  }

  // ----- ids and the store -----

  predicate HexDigit(c: char) {
    '0' <= c <= '9' || 'a' <= c <= 'f'
  }

  predicate SpillId(id: string) {
    |id| == 32 && forall i :: 0 <= i < |id| ==> HexDigit(id[i])
  }

  method ValidSpillID(id: string) returns (ok: bool)
    ensures ok <==> SpillId(id)
    ensures ok <==> |id| == 32 && forall c :: c in id ==> '0' <= c <= '9' || 'a' <= c <= 'f'
    ensures ok ==> forall c :: c in id ==> c != '/' && c != '\\' && c != '.'
  {
    if |id| != 32 {
      return false;
    }
    for i := 0 to |id|
      invariant forall k :: 0 <= k < i ==> HexDigit(id[k])
    {
      var r := id[i];
      if (r < '0' || r > '9') && (r < 'a' || r > 'f') {
        assert r in id;
        return false;
      }
    }
    return true;
  }

  /** Every content gets an id of the right form; the source takes 16 bytes of a SHA-256 in hex. */
  ghost predicate GivesIds(digest: string -> string) {
    forall content :: SpillId(digest(content))
  }

  /** No other content stands where this one would be stored. */
  predicate NoCollision(digest: string -> string, files: map<string, string>, content: string) {
    digest(content) in files ==> files[digest(content)] == content
  }

  class SpillStore {
    const digest: string -> string
    var files: map<string, string>

    /** Every file stands under its own digest. */
    ghost predicate Valid()
      reads this
    {
      GivesIds(digest) && forall id :: id in files ==> digest(files[id]) == id
    }

    constructor (digest: string -> string)
      requires GivesIds(digest)
      ensures Valid() && files == map[] && this.digest == digest
    {
      this.digest, files := digest, map[];
    }

    /**
     * Stores a result once per id; `written` is whether the disk takes the write. The id reads back
     * this very content exactly when no other content was stored under it before.
     */
    method SpillToolResult(content: string, written: bool) returns (r: Located)
      requires Valid()
      modifies `files
      ensures Valid()
      ensures r.Located? <==>
                content != "" && ByteLength(content) <= MAX_SPILLED_RESULT_BYTES && (digest(content) in old(files) || written)
      ensures r.Located? ==> r.id == digest(content) && SpillId(r.id) && r.id in files
      ensures r.Located? ==> (files[r.id] == content <==> NoCollision(digest, old(files), content))
      ensures files == if r.Located? && r.id !in old(files) then old(files)[r.id := content] else old(files)
    {
      if |content| == 0 || ByteLength(content) > MAX_SPILLED_RESULT_BYTES {
        return NotSpilled;
      }
      var id := digest(content);
      if id in files {
        return Located(id);
      }
      if !written {
        return NotSpilled;
      }
      files := files[id := content];
      return Located(id);
    }

    method ReadSpilledToolResult(id: string, offset: int, limit: int) returns (content: string, total: nat, ok: bool)
      ensures ok <==> SpillId(id) && id in files && offset >= 0
      ensures ok ==> var p := PageAt(files[id], offset, limit); content == p.content && total == p.total
    {
      var valid := ValidSpillID(id);
      if !valid || id !in files {
        return "", 0, false;
      }
      var runes := files[id];
      if offset < 0 {
        return "", 0, false;
      }
      var from, size := offset, limit;
      if from > |runes| {
        from := |runes|;
      }
      if size <= 0 || size > MAX_WINDOW {
        size := MAX_WINDOW;
      }
      var end := from + size;
      if end > |runes| {
        end := |runes|;
      }
      return runes[from..end], |runes|, true;
    }

    method InspectToolResult(id: string, offset: int, limit: int) returns (page: Page)
      ensures page == if SpillId(id) && id in files then PageAt(files[id], offset, limit) else NoPage
    {
      var content, total, ok := ReadSpilledToolResult(id, offset, limit);
      if !ok {
        return NoPage;
      }
      return Page(content, total, offset + |content| < total);
    }

    /** Pages through a stored result from its start, as a reader of the tool does. */
    method ReadWhole(id: string, limits: nat -> int) returns (payload: string)
      requires SpillId(id) && id in files
      ensures payload == files[id]
    {
      ghost var whole := files[id];
      PagingReadsAll(whole, 0, limits, 0);
      assert whole[0..] == whole;
      var offset, n := 0, 0;
      payload := "";
      var more := true;
      while more
        invariant ReadSoFar(whole, payload, more, offset, limits, n)
        decreases |whole| - offset, more
      {
        NextRead(whole, payload, offset, limits, n);
        var page := InspectToolResult(id, offset, limits(n));
        payload := payload + page.content;
        more := page.hasMore;
        offset, n := offset + |page.content|, n + 1;
      }
    }

    /** A result too long for the history is pruned there; the id it was given reads back the whole, unless two contents share it. */
    method PruneToolResultForHistory(content: string, written: bool) returns (kept: Kept)
      requires Valid()
      modifies `files
      ensures Valid()
      ensures |content| <= HISTORY_THRESHOLD ==> kept == Whole(content) && files == old(files)
      ensures |content| > HISTORY_THRESHOLD ==> kept.Pruned? && kept == Prune(content, kept.full)
      ensures |content| > HISTORY_THRESHOLD ==>
                (kept.full.Located? <==> ByteLength(content) <= MAX_SPILLED_RESULT_BYTES && (digest(content) in old(files) || written))
      ensures kept.Pruned? && kept.full.Located? ==>
                && SpillId(kept.full.id) && kept.full.id in files
                && (files[kept.full.id] == content <==> NoCollision(digest, old(files), content))
      ensures forall id :: id in old(files) ==> id in files && files[id] == old(files)[id]
    {
      if |content| <= HISTORY_THRESHOLD {
        return Whole(content);
      }
      var full := SpillToolResult(content, written);
      return Pruned(|content|, |content| - HISTORY_HEAD - HISTORY_TAIL, content[..HISTORY_HEAD], content[|content| - HISTORY_TAIL..], full);
    }
  }

  /** Contents that get different ids. */
  predicate Apart(digest: string -> string, contents: seq<string>) {
    forall i, j :: 0 <= i < |contents| && 0 <= j < |contents| && digest(contents[i]) == digest(contents[j]) ==> contents[i] == contents[j]
  }

  /** Each of the contents stands under its own digest. */
  predicate Stand(digest: string -> string, files: map<string, string>, contents: seq<string>) {
    forall k :: 0 <= k < |contents| ==> digest(contents[k]) in files && files[digest(contents[k])] == contents[k]
  }

  /** Every file holds one of the contents. */
  predicate Only(files: map<string, string>, contents: seq<string>) {
    forall id :: id in files ==> files[id] in contents
  }

  lemma StoredNext(digest: string -> string, files: map<string, string>, contents: seq<string>, i: nat)
    requires i < |contents| && Apart(digest, contents)
    requires forall id :: id in files ==> digest(files[id]) == id
    requires Stand(digest, files, contents[..i]) && Only(files, contents[..i])
    ensures NoCollision(digest, files, contents[i])
    ensures var id := digest(contents[i]); var files' := if id in files then files else files[id := contents[i]];
            Stand(digest, files', contents[..i + 1]) && Only(files', contents[..i + 1])
  {
    var id := digest(contents[i]);
    if id in files {
      var k :| 0 <= k < i && contents[k] == files[id];
      assert contents[k] == contents[i];
    }
    var files' := if id in files then files else files[id := contents[i]];
    var more := contents[..i + 1];
    forall k | 0 <= k < |more| ensures digest(more[k]) in files' && files'[digest(more[k])] == more[k] {
      if k < i { assert contents[..i][k] == more[k]; }
    }
    forall x | x in files' ensures files'[x] in more {
      if x in files {
        var k :| 0 <= k < i && contents[..i][k] == files[x];
        assert more[k] == files[x];
      } else {
        assert more[i] == contents[i];
      }
    }
  }

  /** Spilling results one after the other keeps each of them, as long as no two share a digest. */
  method SpillAll(digest: string -> string, contents: seq<string>) returns (store: SpillStore)
    requires GivesIds(digest) && Apart(digest, contents)
    requires forall i :: 0 <= i < |contents| ==> contents[i] != "" && ByteLength(contents[i]) <= MAX_SPILLED_RESULT_BYTES
    ensures fresh(store) && store.Valid() && store.digest == digest
    ensures Stand(digest, store.files, contents)
  {
    store := new SpillStore(digest);
    for i := 0 to |contents|
      invariant fresh(store) && store.Valid() && store.digest == digest
      invariant Stand(digest, store.files, contents[..i]) && Only(store.files, contents[..i])
    {
      StoredNext(digest, store.files, contents, i);
      var _ := store.SpillToolResult(contents[i], true);
    }
    assert contents[..|contents|] == contents;
  }

  /** Spills results and reads each back: every one of them comes back whole, for any limits of the reads. */
  method SpillAndReadAll(digest: string -> string, contents: seq<string>, limits: nat -> int)
    returns (payloads: seq<string>)
    requires GivesIds(digest) && Apart(digest, contents)
    requires forall i :: 0 <= i < |contents| ==> contents[i] != "" && ByteLength(contents[i]) <= MAX_SPILLED_RESULT_BYTES
    ensures payloads == contents
  {
    var store := SpillAll(digest, contents);
    payloads := [];
    for i := 0 to |contents|
      invariant payloads == contents[..i]
      invariant GivesIds(digest) && Stand(digest, store.files, contents)
    {
      var payload := store.ReadWhole(digest(contents[i]), limits);
      payloads := payloads + [payload];
    }
  }

  /** A digest and contents as that asks for: a letter for each of two contents, and one id for all others. */
  lemma TwoApart() returns (digest: string -> string)
    ensures GivesIds(digest) && Apart(digest, ["x", "y"]) && digest("x") != digest("y")
  {
    digest := content => if content == "x" then IdOf('a') else IdOf('b');
    assert IdOf('a')[0] != IdOf('b')[0];
  }

  function IdOf(c: char): (id: string)
    requires HexDigit(c)
    ensures SpillId(id) && id[0] == c
  {
    seq(32, i => c)
  }
}
