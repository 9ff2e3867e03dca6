/**
  The audit hash chain: appending (audit/application.py), verification
  (audit/api.py) and the backfill of migration 0011, which must build the same
  chains with one loop over all partitions.

  `hash` is the digest of a canonical document, an arbitrary function: results
  that depend on it name the documents that would collide.
 */
module AuditChain {
  import opened Wrappers

  type Time = int
  type Uuid = nat
  type Digest = string

  /** Sixty-four zeros. */
  const GENESIS: Digest := "0000000000000000000000000000000000000000000000000000000000000000"

  /** The part of an audit row that does not depend on its place in a chain. */
  datatype Content = Content(
    tenant: Option<Uuid>, project: Option<Uuid>, actorType: string, actorId: string, action: string,
    resourceType: string, resourceId: Option<string>, requestId: string, traceId: string,
    outcome: string, metadata: string, createdAt: Time)

  /** `partition_key`: the tenant's id, or "platform". */
  datatype Partition = Platform | Tenant(id: Uuid)

  /** The canonical document that is hashed. */
  datatype Document = Document(partition: Partition, sequence: nat, previousHash: Digest, content: Content)

  datatype Entry = Entry(document: Document, entryHash: Digest)

  function PartitionOf(content: Content): Partition {
    if content.tenant.Some? then Tenant(content.tenant.value) else Platform
  }

  // ------------------------------------------------------------- verification

  predicate VerifyEntry(hash: Document -> Digest, row: Entry, expectedPreviousHash: Digest) {
    row.document.previousHash == expectedPreviousHash && row.entryHash == hash(row.document)
  }

  function LastHash(rows: seq<Entry>): Digest {
    if rows == [] then GENESIS else rows[|rows| - 1].entryHash
  }

  /** Row `i` continues the chain of the rows before it. */
  predicate LinkHolds(hash: Document -> Digest, rows: seq<Entry>, i: nat)
    requires i < |rows|
  {
    VerifyEntry(hash, rows[i], LastHash(rows[..i]))
  }

  predicate ChainValid(hash: Document -> Digest, rows: seq<Entry>) {
    forall i :: 0 <= i < |rows| ==> LinkHolds(hash, rows, i)
  }

  datatype IntegrityReport = IntegrityReport(
    valid: bool, checkedEntries: nat, firstSequence: Option<nat>, lastSequence: Option<nat>,
    brokenSequence: Option<nat>)

  /** Verification accepts exactly the valid chains, and names the first row that breaks one. */
  method VerifyAuditIntegrity(hash: Document -> Digest, rows: seq<Entry>) returns (report: IntegrityReport)
    ensures report.valid <==> ChainValid(hash, rows)
    ensures report.checkedEntries == |rows|
    ensures report.firstSequence == if rows == [] then None else Some(rows[0].document.sequence)
    ensures report.lastSequence == if rows == [] then None else Some(rows[|rows| - 1].document.sequence)
    ensures report.brokenSequence.Some? <==> !report.valid
    ensures !report.valid ==>
      exists i ::
        && 0 <= i < |rows|
        && ChainValid(hash, rows[..i]) && !LinkHolds(hash, rows, i)
        && report.brokenSequence == Some(rows[i].document.sequence)
  {
    var first := if rows == [] then None else Some(rows[0].document.sequence);
    var last := if rows == [] then None else Some(rows[|rows| - 1].document.sequence);
    var previousHash := GENESIS;
    for i := 0 to |rows|
      invariant previousHash == LastHash(rows[..i])
      invariant forall k :: 0 <= k < i ==> LinkHolds(hash, rows, k)
    {
      if !VerifyEntry(hash, rows[i], previousHash) {
        PrefixLinks(hash, rows, i);
        assert !LinkHolds(hash, rows, i);
        return IntegrityReport(false, |rows|, first, last, Some(rows[i].document.sequence));
      }
      previousHash := rows[i].entryHash;
    }
    return IntegrityReport(true, |rows|, first, last, None);
  }

  /** A link depends only on the rows up to it. */
  lemma PrefixLinks(hash: Document -> Digest, rows: seq<Entry>, n: nat)
    requires n <= |rows|
    ensures ChainValid(hash, rows[..n]) <==> forall k :: 0 <= k < n ==> LinkHolds(hash, rows, k)
  {
    forall k | 0 <= k < n
      ensures LinkHolds(hash, rows[..n], k) <==> LinkHolds(hash, rows, k)
    {
      assert rows[..n][..k] == rows[..k];
    }
  }

  // ------------------------------------------------------------------ binding

  /** Two different documents of the two lists have one digest. */
  predicate Collision(hash: Document -> Digest, a: seq<Entry>, b: seq<Entry>) {
    exists i, j :: 0 <= i < |a| && 0 <= j < |b| && a[i].document != b[j].document
      && hash(a[i].document) == hash(b[j].document)
  }

  /** A document of the list has the all-zero digest. */
  predicate GenesisPreimage(hash: Document -> Digest, a: seq<Entry>) {
    exists i :: 0 <= i < |a| && hash(a[i].document) == GENESIS
  }

  predicate HashBroken(hash: Document -> Digest, a: seq<Entry>, b: seq<Entry>) {
    Collision(hash, a, b) || GenesisPreimage(hash, a) || GenesisPreimage(hash, b)
  }

  lemma HashBrokenGrows(hash: Document -> Digest, a: seq<Entry>, b: seq<Entry>, m: nat, n: nat)
    requires m <= |a| && n <= |b| && HashBroken(hash, a[..m], b[..n])
    ensures HashBroken(hash, a, b)
  {
    if Collision(hash, a[..m], b[..n]) {
      var i, j :| 0 <= i < m && 0 <= j < n && a[..m][i].document != b[..n][j].document
        && hash(a[..m][i].document) == hash(b[..n][j].document);
      assert a[i].document != b[j].document && hash(a[i].document) == hash(b[j].document);
    } else if GenesisPreimage(hash, a[..m]) {
      var i :| 0 <= i < m && hash(a[..m][i].document) == GENESIS;
      assert hash(a[i].document) == GENESIS;
    } else {
      var i :| 0 <= i < n && hash(b[..n][i].document) == GENESIS;
      assert hash(b[i].document) == GENESIS;
    }
  }

  /**
    Two lists that both verify and end in the same hash are the same entries,
    or they exhibit a collision or a preimage of the genesis value.
   */
  lemma {:induction false} ChainsBind(hash: Document -> Digest, a: seq<Entry>, b: seq<Entry>)
    requires ChainValid(hash, a) && ChainValid(hash, b)
    requires LastHash(a) == LastHash(b)
    ensures a == b || HashBroken(hash, a, b)
    decreases |a|
  {
    if a == [] && b == [] {
    } else if a == [] {
      assert LinkHolds(hash, b, |b| - 1);
      assert hash(b[|b| - 1].document) == GENESIS;
    } else if b == [] {
      assert LinkHolds(hash, a, |a| - 1);
      assert hash(a[|a| - 1].document) == GENESIS;
    } else {
      var m, n := |a| - 1, |b| - 1;
      assert LinkHolds(hash, a, m) && LinkHolds(hash, b, n);
      if a[m].document == b[n].document {
        PrefixLinks(hash, a, m);
        PrefixLinks(hash, b, n);
        ChainsBind(hash, a[..m], b[..n]);
        if a[..m] == b[..n] {
          assert a == a[..m] + [a[m]] && b == b[..n] + [b[n]];
        } else {
          HashBrokenGrows(hash, a, b, m, n);
        }
      } else {
        assert hash(a[m].document) == hash(b[n].document);
      }
    }
  }

  /**
    Removing, inserting or altering entries before the last one is detected:
    rows that keep the last hash of a valid chain verify exactly when they are
    that chain, unless the hash is broken.
   */
  lemma TamperingDetected(hash: Document -> Digest, original: seq<Entry>, tampered: seq<Entry>)
    requires ChainValid(hash, original) && LastHash(tampered) == LastHash(original)
    requires !HashBroken(hash, original, tampered)
    ensures ChainValid(hash, tampered) <==> tampered == original
  {
    if ChainValid(hash, tampered) {
      ChainsBind(hash, original, tampered);
    }
  }

  /** Every prefix of a valid chain is valid. */
  lemma TruncationVerifies(hash: Document -> Digest, original: seq<Entry>, n: nat)
    requires ChainValid(hash, original) && n <= |original|
    ensures ChainValid(hash, original[..n])
  {
    PrefixLinks(hash, original, n);
  }

  predicate DrawnFrom(rows: seq<Entry>, a: seq<Entry>) {
    forall k :: 0 <= k < |rows| ==> rows[k] in a
  }

  lemma HashBrokenInside(hash: Document -> Digest, a: seq<Entry>, x: seq<Entry>, y: seq<Entry>)
    requires DrawnFrom(x, a) && DrawnFrom(y, a) && HashBroken(hash, x, y)
    ensures HashBroken(hash, a, a)
  {
    if Collision(hash, x, y) {
      var i, j :| 0 <= i < |x| && 0 <= j < |y| && x[i].document != y[j].document
        && hash(x[i].document) == hash(y[j].document);
      var k :| 0 <= k < |a| && a[k] == x[i];
      var l :| 0 <= l < |a| && a[l] == y[j];
      assert a[k].document != a[l].document && hash(a[k].document) == hash(a[l].document);
    } else if GenesisPreimage(hash, x) {
      var i :| 0 <= i < |x| && hash(x[i].document) == GENESIS;
      var k :| 0 <= k < |a| && a[k] == x[i];
      assert hash(a[k].document) == GENESIS;
    } else {
      var i :| 0 <= i < |y| && hash(y[i].document) == GENESIS;
      var k :| 0 <= k < |a| && a[k] == y[i];
      assert hash(a[k].document) == GENESIS;
    }
  }

  /** A valid chain and valid rows drawn from it agree up to the entry in which the rows end. */
  lemma RowsEndingAt(hash: Document -> Digest, a: seq<Entry>, rows: seq<Entry>, m: nat)
    requires ChainValid(hash, a) && ChainValid(hash, rows) && DrawnFrom(rows, a) && !HashBroken(hash, a, a)
    requires m < |a| && rows != [] && rows[|rows| - 1] == a[m]
    ensures rows == a[..m + 1]
  {
    TruncationVerifies(hash, a, m + 1);
    ChainsBind(hash, a[..m + 1], rows);
    if HashBroken(hash, a[..m + 1], rows) {
      HashBrokenInside(hash, a, a[..m + 1], rows);
    }
  }

  /**
    What verification can see and what it cannot: of all rows that can be drawn
    from a valid chain, with any left out, repeated or out of order, exactly the
    prefixes verify, unless the hash is broken.
   */
  lemma OnlyPrefixesVerify(hash: Document -> Digest, a: seq<Entry>, rows: seq<Entry>)
    requires ChainValid(hash, a) && DrawnFrom(rows, a) && !HashBroken(hash, a, a)
    ensures ChainValid(hash, rows) <==> rows <= a
  {
    if rows <= a {
      assert rows == a[..|rows|];
      TruncationVerifies(hash, a, |rows|);
    } else if ChainValid(hash, rows) && rows != [] {
      var m :| 0 <= m < |a| && a[m] == rows[|rows| - 1];
      RowsEndingAt(hash, a, rows, m);
    }
  }

  /** No entry occurs twice in a valid chain. */
  lemma EntriesAreDistinct(hash: Document -> Digest, a: seq<Entry>, i: nat, j: nat)
    requires ChainValid(hash, a) && i < j < |a| && !HashBroken(hash, a, a)
    ensures a[i] != a[j]
  {
    if a[i] == a[j] {
      TruncationVerifies(hash, a, i + 1);
      RowsEndingAt(hash, a, a[..i + 1], j);
    }
  }

  /** So deleting a block of entries goes unnoticed exactly when it is empty or the newest ones. */
  lemma DeletionVerifiesIff(hash: Document -> Digest, a: seq<Entry>, i: nat, j: nat)
    requires ChainValid(hash, a) && i <= j <= |a| && !HashBroken(hash, a, a)
    ensures ChainValid(hash, a[..i] + a[j..]) <==> i == j || j == |a|
  {
    var rows := a[..i] + a[j..];
    OnlyPrefixesVerify(hash, a, rows);
    if i == j {
      assert rows == a;
    } else if j == |a| {
      assert rows == a[..i];
    } else {
      EntriesAreDistinct(hash, a, i, j);
      assert rows[i] == a[j];
    }
  }

  // ---------------------------------------------------------- building chains

  /** The rows of one partition, in the order they were written. */
  function Project(log: seq<Entry>, p: Partition): seq<Entry> {
    if log == [] then []
    else
      var last := log[|log| - 1];
      Project(log[..|log| - 1], p) + (if last.document.partition == p then [last] else [])
  }

  function Select(contents: seq<Content>, p: Partition): seq<Content> {
    if contents == [] then []
    else
      var last := contents[|contents| - 1];
      Select(contents[..|contents| - 1], p) + (if PartitionOf(last) == p then [last] else [])
  }

  function Contents(rows: seq<Entry>): seq<Content> {
    seq(|rows|, i requires 0 <= i < |rows| => rows[i].document.content)
  }

  function NextEntry(hash: Document -> Digest, p: Partition, chain: seq<Entry>, content: Content): Entry {
    var document := Document(p, |chain| + 1, LastHash(chain), content);
    Entry(document, hash(document))
  }

  /** One partition's chain, folded over its contents alone. */
  function BuildChain(hash: Document -> Digest, p: Partition, contents: seq<Content>): (chain: seq<Entry>)
    ensures |chain| == |contents|
  {
    if contents == [] then []
    else
      var chain := BuildChain(hash, p, contents[..|contents| - 1]);
      chain + [NextEntry(hash, p, chain, contents[|contents| - 1])]
  }

  /** Built chains carry the sequence numbers 1, 2, ... without gaps, keep the contents, and verify. */
  lemma {:induction false} BuiltChainSound(hash: Document -> Digest, p: Partition, contents: seq<Content>)
    ensures var chain := BuildChain(hash, p, contents);
      && ChainValid(hash, chain)
      && Contents(chain) == contents
      && forall i :: 0 <= i < |chain| ==> chain[i].document.sequence == i + 1 && chain[i].document.partition == p
  {
    if contents != [] {
      var n := |contents| - 1;
      BuiltChainSound(hash, p, contents[..n]);
      var prefix := BuildChain(hash, p, contents[..n]);
      var chain := BuildChain(hash, p, contents);
      assert chain[..n] == prefix;
      PrefixLinks(hash, chain, n);
      assert LinkHolds(hash, chain, n);
      forall i | 0 <= i < |contents|
        ensures Contents(chain)[i] == contents[i]
      {
        assert i < n ==> Contents(prefix)[i] == contents[i];
      }
    }
  }

  /** The partition's rows are the chain built from its contents. */
  predicate PartitionSound(hash: Document -> Digest, log: seq<Entry>, p: Partition) {
    Project(log, p) == BuildChain(hash, p, Select(Contents(log), p))
  }

  /** Every partition of the log is sound, and every row lies in its own partition. */
  ghost predicate LogSound(hash: Document -> Digest, log: seq<Entry>) {
    && (forall p :: PartitionSound(hash, log, p))
    && (forall i :: 0 <= i < |log| ==> log[i].document.partition == PartitionOf(log[i].document.content))
  }

  // ------------------------------------------------------------------- append

  /** The row with the highest sequence number. */
  function Latest(rows: seq<Entry>): Option<Entry> {
    if rows == [] then None
    else
      var last := rows[|rows| - 1];
      var before := Latest(rows[..|rows| - 1]);
      if before.Some? && before.value.document.sequence > last.document.sequence then before else Some(last)
  }

  function AppendAudit(hash: Document -> Digest, log: seq<Entry>, content: Content): seq<Entry> {
    var p := PartitionOf(content);
    var previous := Latest(Project(log, p));
    var sequence := if previous.Some? then previous.value.document.sequence + 1 else 1;
    var previousHash := if previous.Some? then previous.value.entryHash else GENESIS;
    var document := Document(p, sequence, previousHash, content);
    log + [Entry(document, hash(document))]
  }

  lemma {:induction false} LatestOfBuilt(rows: seq<Entry>)
    requires forall i :: 0 <= i < |rows| ==> rows[i].document.sequence == i + 1
    ensures Latest(rows) == if rows == [] then None else Some(rows[|rows| - 1])
  {
    if rows != [] {
      LatestOfBuilt(rows[..|rows| - 1]);
    }
  }

  lemma ProjectExtends(log: seq<Entry>, entry: Entry, p: Partition)
    ensures Project(log + [entry], p) == Project(log, p) + (if entry.document.partition == p then [entry] else [])
  {
    assert (log + [entry])[..|log|] == log;
  }

  lemma SelectExtends(contents: seq<Content>, content: Content, p: Partition)
    ensures Select(contents + [content], p) == Select(contents, p)
      + (if PartitionOf(content) == p then [content] else [])
  {
    assert (contents + [content])[..|contents|] == contents;
  }

  lemma BuildExtends(hash: Document -> Digest, p: Partition, contents: seq<Content>, content: Content)
    ensures var chain := BuildChain(hash, p, contents);
      BuildChain(hash, p, contents + [content]) == chain + [NextEntry(hash, p, chain, content)]
  {
    assert (contents + [content])[..|contents|] == contents;
  }

  lemma ContentsExtend(log: seq<Entry>, entry: Entry)
    ensures Contents(log + [entry]) == Contents(log) + [entry.document.content]
  {
  }

  lemma ExtendKeepsPartitionSound(hash: Document -> Digest, log: seq<Entry>, content: Content, q: Partition)
    requires PartitionSound(hash, log, q)
    ensures var p := PartitionOf(content);
      PartitionSound(hash, log + [NextEntry(hash, p, Project(log, p), content)], q)
  {
    var p := PartitionOf(content);
    var entry := NextEntry(hash, p, Project(log, p), content);
    ContentsExtend(log, entry);
    ProjectExtends(log, entry, q);
    SelectExtends(Contents(log), content, q);
    if q == p {
      BuildExtends(hash, p, Select(Contents(log), p), content);
    } else {
      assert Project(log, q) + [] == Project(log, q);
      assert Select(Contents(log), q) + [] == Select(Contents(log), q);
    }
  }

  /** One more entry of a sound log extends its own partition's chain and no other. */
  lemma ExtendKeepsLogSound(hash: Document -> Digest, log: seq<Entry>, content: Content)
    requires LogSound(hash, log)
    ensures var p := PartitionOf(content);
      LogSound(hash, log + [NextEntry(hash, p, Project(log, p), content)])
  {
    var p := PartitionOf(content);
    forall q: Partition
      ensures PartitionSound(hash, log + [NextEntry(hash, p, Project(log, p), content)], q)
    {
      assert PartitionSound(hash, log, q);
      ExtendKeepsPartitionSound(hash, log, content, q);
    }
  }

  lemma AppendExtends(hash: Document -> Digest, log: seq<Entry>, content: Content)
    requires LogSound(hash, log)
    ensures var p := PartitionOf(content);
      AppendAudit(hash, log, content) == log + [NextEntry(hash, p, Project(log, p), content)]
  {
    var p := PartitionOf(content);
    assert PartitionSound(hash, log, p);
    BuiltChainSound(hash, p, Select(Contents(log), p));
    LatestOfBuilt(Project(log, p));
  }

  function AppendAll(hash: Document -> Digest, log: seq<Entry>, contents: seq<Content>): seq<Entry>
    decreases |contents|
  {
    if contents == [] then log else AppendAll(hash, AppendAudit(hash, log, contents[0]), contents[1..])
  }

  lemma {:induction false} AppendAllKeepsLogSound(hash: Document -> Digest, log: seq<Entry>, contents: seq<Content>)
    requires LogSound(hash, log)
    ensures LogSound(hash, AppendAll(hash, log, contents))
    decreases |contents|
  {
    if contents != [] {
      AppendExtends(hash, log, contents[0]);
      ExtendKeepsLogSound(hash, log, contents[0]);
      AppendAllKeepsLogSound(hash, AppendAudit(hash, log, contents[0]), contents[1..]);
    }
  }

  lemma FirstThenRest(before: seq<Content>, contents: seq<Content>)
    requires contents != []
    ensures before + [contents[0]] + contents[1..] == before + contents
  {
  }

  lemma AppendKeepsContents(hash: Document -> Digest, log: seq<Entry>, content: Content)
    ensures Contents(AppendAudit(hash, log, content)) == Contents(log) + [content]
  {
    ContentsExtend(log, AppendAudit(hash, log, content)[|log|]);
  }

  lemma {:induction false} AppendAllKeepsContents(hash: Document -> Digest, log: seq<Entry>, contents: seq<Content>)
    ensures Contents(AppendAll(hash, log, contents)) == Contents(log) + contents
    decreases |contents|
  {
    if contents == [] {
      assert Contents(log) + contents == Contents(log);
    } else {
      AppendKeepsContents(hash, log, contents[0]);
      AppendAllKeepsContents(hash, AppendAudit(hash, log, contents[0]), contents[1..]);
      FirstThenRest(Contents(log), contents);
    }
  }

  // ----------------------------------------------------------------- backfill

  /** The two dictionaries hold each partition's length and last hash. */
  ghost predicate Tracks(log: seq<Entry>, sequences: map<Partition, nat>, previous: map<Partition, Digest>) {
    forall p :: TracksPartition(log, sequences, previous, p)
  }

  predicate TracksPartition(log: seq<Entry>, sequences: map<Partition, nat>, previous: map<Partition, Digest>,
                            p: Partition)
  {
    && (if p in sequences then sequences[p] else 0) == |Project(log, p)|
    && (if p in previous then previous[p] else GENESIS) == LastHash(Project(log, p))
  }

  lemma TracksOther(log: seq<Entry>, entry: Entry, sequences: map<Partition, nat>, previous: map<Partition, Digest>,
                    q: Partition, n: nat)
    requires TracksPartition(log, sequences, previous, q) && q != entry.document.partition
    ensures var p := entry.document.partition;
      TracksPartition(log + [entry], sequences[p := n], previous[p := entry.entryHash], q)
  {
    ProjectExtends(log, entry, q);
    assert Project(log, q) + [] == Project(log, q);
  }

  lemma TracksOwn(log: seq<Entry>, entry: Entry, sequences: map<Partition, nat>, previous: map<Partition, Digest>)
    ensures var p := entry.document.partition;
      TracksPartition(log + [entry], sequences[p := |Project(log, p)| + 1], previous[p := entry.entryHash], p)
  {
    ProjectExtends(log, entry, entry.document.partition);
  }

  lemma TracksNext(log: seq<Entry>, entry: Entry, sequences: map<Partition, nat>, previous: map<Partition, Digest>)
    requires Tracks(log, sequences, previous)
    ensures var p := entry.document.partition;
      Tracks(log + [entry], sequences[p := |Project(log, p)| + 1], previous[p := entry.entryHash])
  {
    var p := entry.document.partition;
    var n, longer := |Project(log, p)| + 1, log + [entry];
    var sequences', previous' := sequences[p := n], previous[p := entry.entryHash];
    forall q: Partition
      ensures TracksPartition(longer, sequences', previous', q)
    {
      if q == p {
        TracksOwn(log, entry, sequences, previous);
      } else {
        assert TracksPartition(log, sequences, previous, q);
        TracksOther(log, entry, sequences, previous, q, n);
      }
    }
  }

  /**
    The migration's single loop with per-partition dictionaries: the rows keep
    their contents, and every partition is the chain folded over that partition alone.
   */
  method Backfill(hash: Document -> Digest, rows: seq<Content>) returns (log: seq<Entry>)
    ensures Contents(log) == rows
    ensures LogSound(hash, log)
  {
    log := [];
    var sequenceByPartition: map<Partition, nat> := map[];
    var previousByPartition: map<Partition, Digest> := map[];
    for i := 0 to |rows|
      invariant Contents(log) == rows[..i]
      invariant LogSound(hash, log)
      invariant Tracks(log, sequenceByPartition, previousByPartition)
    {
      var row := rows[i];
      var partition := if row.tenant.Some? then Tenant(row.tenant.value) else Platform;
      var sequence := (if partition in sequenceByPartition then sequenceByPartition[partition] else 0) + 1;
      var previousHash := if partition in previousByPartition then previousByPartition[partition] else GENESIS;
      var document := Document(partition, sequence, previousHash, row);
      var entry := Entry(document, hash(document));
      assert TracksPartition(log, sequenceByPartition, previousByPartition, partition);
      assert entry == NextEntry(hash, partition, Project(log, partition), row);
      ExtendKeepsLogSound(hash, log, row);
      TracksNext(log, entry, sequenceByPartition, previousByPartition);
      sequenceByPartition := sequenceByPartition[partition := sequence];
      previousByPartition := previousByPartition[partition := entry.entryHash];
      assert Contents(log + [entry]) == Contents(log) + [row];
      log := log + [entry];
    }
    assert rows[..|rows|] == rows;
  }

  /** The rows verification reads: those with the tenant's id. */
  function TenantRows(log: seq<Entry>, tenant: Uuid): seq<Entry> {
    if log == [] then []
    else
      var last := log[|log| - 1];
      TenantRows(log[..|log| - 1], tenant) + (if last.document.content.tenant == Some(tenant) then [last] else [])
  }

  lemma {:induction false} TenantRowsAreItsPartition(log: seq<Entry>, tenant: Uuid)
    requires forall i :: 0 <= i < |log| ==> log[i].document.partition == PartitionOf(log[i].document.content)
    ensures TenantRows(log, tenant) == Project(log, Tenant(tenant))
  {
    if log != [] {
      TenantRowsAreItsPartition(log[..|log| - 1], tenant);
    }
  }

  /**
    After the backfill and any later interleaving of appends, the rows of every
    partition are in sequence order, numbered 1..n without gaps, hold exactly the
    contents written for it, and verify; a tenant's partition is what the
    endpoint reads for it.
   */
  lemma EveryPartitionVerifies(hash: Document -> Digest, backfilled: seq<Entry>, appended: seq<Content>, p: Partition)
    requires LogSound(hash, backfilled)
    ensures var log := AppendAll(hash, backfilled, appended);
      var rows := Project(log, p);
      && (p.Tenant? ==> TenantRows(log, p.id) == rows)
      && ChainValid(hash, rows)
      && Contents(rows) == Select(Contents(backfilled) + appended, p)
      && forall i :: 0 <= i < |rows| ==> rows[i].document.sequence == i + 1
  {
    AppendAllKeepsLogSound(hash, backfilled, appended);
    AppendAllKeepsContents(hash, backfilled, appended);
    var log := AppendAll(hash, backfilled, appended);
    if p.Tenant? {
      TenantRowsAreItsPartition(log, p.id);
    }
    assert PartitionSound(hash, log, p);
    BuiltChainSound(hash, p, Select(Contents(log), p));
  }
}
