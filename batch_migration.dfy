/**
 * The migration function: `get_stats` and the three paged copy loops of
 * `migrate_all` (projects, then conversations, then messages), with the
 * row-to-record field maps. A source table is a sequence of rows and one
 * `SELECT * ... LIMIT ? OFFSET ?` is a slice of it; the outcome of each bulk
 * insert is a parameter. Generated UUIDs and "now" timestamps are not values
 * here: a record says whether its id was generated or preserved, and whether
 * a timestamp was copied or taken from the clock.
 */
module BatchMigration {
  import opened Wrappers
  import Text
  import Seqs

  /** A column value as the MySQL driver hands it over, with JavaScript truthiness. */
  datatype JsValue = Undefined | Null | Bool(b: bool) | Num(n: int) | Str(s: string)

  /** The values `||` treats as false: undefined, null, false, 0 and "". */
  predicate Truthy(v: JsValue) {
    match v
    case Undefined => false
    case Null => false
    case Bool(b) => b
    case Num(n) => n != 0
    case Str(s) => s != ""
  }

  /** `a || b`. */
  function Or(a: JsValue, b: JsValue): JsValue {
    if Truthy(a) then a else b
  }

  /** `String(v)`. */
  function ToJsString(v: JsValue): string {
    match v
    case Undefined => "undefined"
    case Null => "null"
    case Bool(b) => if b then "true" else "false"
    case Num(n) => Text.IntToString(n)
    case Str(s) => s
  }

  /** `String(v || '')`: every falsy value becomes "", a string is kept. */
  function TextField(v: JsValue): (r: string)
    ensures !Truthy(v) ==> r == ""
    ensures v.Str? ==> r == v.s
    ensures v.Num? && v.n != 0 ==> r == Text.IntToString(v.n)
  {
    ToJsString(Or(v, Str("")))
  }

  /** `v || 0`: a falsy counter becomes 0, anything else is kept. */
  function CounterField(v: JsValue): (r: JsValue)
    ensures !Truthy(v) ==> r == Num(0)
    ensures Truthy(v) ==> r == v
  {
    Or(v, Num(0))
  }

  /** The id of a destination record: a fresh `crypto.randomUUID()` or one taken from the source. */
  datatype RecordId = Fresh | Preserved(value: string)

  /** A destination timestamp: the source value, or `new Date().toISOString()` at mapping time. */
  datatype Stamp = Copied(v: JsValue) | Now

  /** `v || new Date().toISOString()`. */
  function StampField(v: JsValue): (r: Stamp)
    ensures !Truthy(v) ==> r == Now
    ensures Truthy(v) ==> r == Copied(v)
  {
    if Truthy(v) then Copied(v) else Now
  }

  datatype ProjectRow = ProjectRow(
    id: JsValue, workspace_id: JsValue, platform: JsValue, name: JsValue,
    path: JsValue, created_at: JsValue, updated_at: JsValue)

  datatype ProjectRecord = ProjectRecord(
    id: RecordId, workspace_id: string, platform: string, name: string,
    path: string, created_at: Stamp, updated_at: Stamp)

  datatype ConversationRow = ConversationRow(
    id: JsValue, workspace_id: JsValue, project_name: JsValue, name: JsValue,
    created_at: JsValue, last_interacted_at: JsValue, message_count: JsValue,
    created_timestamp: JsValue, updated_timestamp: JsValue)

  datatype ConversationRecord = ConversationRecord(
    id: RecordId, workspace_id: string, project_name: string, name: string,
    created_at: JsValue, last_interacted_at: JsValue, message_count: JsValue,
    created_timestamp: Stamp, updated_timestamp: Stamp)

  datatype MessageRow = MessageRow(
    id: JsValue, conversation_id: JsValue, request_id: JsValue, role: JsValue,
    content: JsValue, timestamp: JsValue, message_order: JsValue,
    workspace_files: JsValue, created_at: JsValue)

  datatype MessageRecord = MessageRecord(
    id: RecordId, conversation_id: string, request_id: string, role: string,
    content: string, timestamp: JsValue, message_order: JsValue,
    workspace_files: JsValue, created_at: Stamp)

  /** The project map: a fresh id always, text fields through `String(v || '')`, missing timestamps from the clock. */
  function MapProject(p: ProjectRow): (r: ProjectRecord)
    ensures r.id == Fresh
    ensures r.workspace_id == TextField(p.workspace_id) && r.platform == TextField(p.platform)
    ensures r.name == TextField(p.name) && r.path == TextField(p.path)
    ensures r.created_at == StampField(p.created_at) && r.updated_at == StampField(p.updated_at)
  {
    ProjectRecord(
      Fresh, TextField(p.workspace_id), TextField(p.platform), TextField(p.name),
      TextField(p.path), StampField(p.created_at), StampField(p.updated_at))
  }

  /** `String(conv.id || crypto.randomUUID())`: the source id kept as a string, a fresh one only when it is falsy. */
  function ConversationId(id: JsValue): (r: RecordId)
    ensures Truthy(id) ==> r == Preserved(ToJsString(id))
    ensures !Truthy(id) ==> r == Fresh
  {
    if Truthy(id) then Preserved(ToJsString(id)) else Fresh
  }

  /** The conversation map: the id preserved, `message_count` defaulting to 0, two timestamps copied as they are. */
  function MapConversation(c: ConversationRow): (r: ConversationRecord)
    ensures r.id == ConversationId(c.id)
    ensures r.workspace_id == TextField(c.workspace_id) && r.project_name == TextField(c.project_name)
    ensures r.name == TextField(c.name)
    ensures r.created_at == c.created_at && r.last_interacted_at == c.last_interacted_at
    ensures r.message_count == CounterField(c.message_count)
    ensures r.created_timestamp == StampField(c.created_timestamp)
    ensures r.updated_timestamp == StampField(c.updated_timestamp)
  {
    ConversationRecord(
      ConversationId(c.id), TextField(c.workspace_id), TextField(c.project_name), TextField(c.name),
      c.created_at, c.last_interacted_at, CounterField(c.message_count),
      StampField(c.created_timestamp), StampField(c.updated_timestamp))
  }

  /** The message map: a fresh id, text fields through `String(v || '')`, `message_order` defaulting to 0. */
  function MapMessage(m: MessageRow): (r: MessageRecord)
    ensures r.id == Fresh
    ensures r.conversation_id == TextField(m.conversation_id) && r.request_id == TextField(m.request_id)
    ensures r.role == TextField(m.role) && r.content == TextField(m.content)
    ensures r.timestamp == m.timestamp && r.workspace_files == m.workspace_files
    ensures r.message_order == CounterField(m.message_order)
    ensures r.created_at == StampField(m.created_at)
  {
    MessageRecord(
      Fresh, TextField(m.conversation_id), TextField(m.request_id), TextField(m.role),
      TextField(m.content), m.timestamp, CounterField(m.message_order), m.workspace_files,
      StampField(m.created_at))
  }

  /**
   * The identity policy: projects and messages get a new id on every run, so a
   * second run duplicates them; a conversation with a truthy id gets the same
   * destination id on every run.
   */
  lemma IdentityPolicy(p: ProjectRow, c: ConversationRow, m: MessageRow)
    ensures MapProject(p).id.Fresh? && MapMessage(m).id.Fresh?
    ensures Truthy(c.id) ==> MapConversation(c).id == Preserved(ToJsString(c.id))
    ensures c.id.Str? && c.id.s != "" ==> MapConversation(c).id == Preserved(c.id.s)
  {
  }

  function Min(a: int, b: int): int {
    if a <= b then a else b
  }

  /** `SELECT * FROM t LIMIT limit OFFSET offset` on a table whose rows are `rows`. */
  function Page<T>(rows: seq<T>, offset: nat, limit: nat): (p: seq<T>)
    ensures |p| == if offset >= |rows| then 0 else Min(limit, |rows| - offset)
    ensures offset < |rows| ==> p == rows[offset..Min(offset + limit, |rows|)]
  {
    if offset >= |rows| then [] else rows[offset..Min(offset + limit, |rows|)]
  }

  /** The copy loop reads no further page: the counted total is reached or the page read was empty. */
  predicate Stops<T>(rows: seq<T>, total: int, batch: nat, offset: nat) {
    offset >= total || |Page(rows, offset, batch)| == 0
  }

  /** The offsets at which one copy loop reads a non-empty page, starting at `offset`. */
  function PageOffsets<T>(rows: seq<T>, total: int, batch: nat, offset: nat): seq<nat>
    requires batch > 0
    decreases total - offset
  {
    if Stops(rows, total, batch, offset) then []
    else [offset] + PageOffsets(rows, total, batch, offset + batch)
  }

  /**
   * The offsets at which one copy loop issues its `SELECT`, starting at
   * `offset`: every offset below the counted total up to and including the
   * first one whose page is empty.
   */
  function ReadOffsets<T>(rows: seq<T>, total: int, batch: nat, offset: nat): seq<nat>
    requires batch > 0
    decreases total - offset
  {
    if offset >= total then []
    else if |Page(rows, offset, batch)| == 0 then [offset]
    else [offset] + ReadOffsets(rows, total, batch, offset + batch)
  }

  /** The rows one copy loop reads, from `offset` on, when no query fails. */
  function CopiedRows<T>(rows: seq<T>, total: int, batch: nat, offset: nat): seq<T>
    requires batch > 0
    decreases total - offset
  {
    if Stops(rows, total, batch, offset) then []
    else Page(rows, offset, batch) + CopiedRows(rows, total, batch, offset + batch)
  }

  /** What one copy loop leaves behind: the records inserted and whether a query raised. */
  datatype CopyRun<D> = CopyRun(inserted: seq<D>, failed: bool)

  /**
   * One copy loop from `offset` on: below the counted total read a page (the
   * read may raise), stop on an empty page, insert the mapped page in one
   * statement, and stop at the first read or insert that raises (nothing of
   * that page is inserted).
   */
  function Copy<T, D>(rows: seq<T>, total: int, batch: nat, offset: nat, f: T -> D,
                      readFails: nat -> bool, insertFails: nat -> bool): CopyRun<D>
    requires batch > 0
    decreases total - offset
  {
    if offset >= total then CopyRun([], false)
    else if readFails(offset) then CopyRun([], true)
    else if |Page(rows, offset, batch)| == 0 then CopyRun([], false)
    else if insertFails(offset) then CopyRun([], true)
    else
      var rest := Copy(rows, total, batch, offset + batch, f, readFails, insertFails);
      CopyRun(Seqs.Map(Page(rows, offset, batch), f) + rest.inserted, rest.failed)
  }

  /** Pages are read at `offset`, `offset + batch`, ... each below the counted total and below the table's end. */
  lemma {:induction false} PageOffsetsShape<T>(rows: seq<T>, total: int, batch: nat, offset: nat)
    requires batch > 0
    ensures forall k :: 0 <= k < |PageOffsets(rows, total, batch, offset)| ==>
      var o := PageOffsets(rows, total, batch, offset)[k];
      o == offset + k * batch && o < total && o < |rows|
    decreases total - offset
  {
    if !Stops(rows, total, batch, offset) {
      PageOffsetsShape(rows, total, batch, offset + batch);
      var s := PageOffsets(rows, total, batch, offset);
      forall k | 0 <= k < |s| ensures s[k] == offset + k * batch && s[k] < total && s[k] < |rows| {
        if k > 0 {
          assert s[k] == PageOffsets(rows, total, batch, offset + batch)[k - 1];
          assert offset + batch + (k - 1) * batch == offset + k * batch;
        }
      }
    }
  }

  /**
   * The reads are the non-empty pages and at most one more: the empty page
   * that ends the loop before the counted total.
   */
  lemma {:induction false} ReadOffsetsExtendPages<T>(rows: seq<T>, total: int, batch: nat, offset: nat)
    requires batch > 0
    ensures var issued, pages := ReadOffsets(rows, total, batch, offset), PageOffsets(rows, total, batch, offset);
      && pages <= issued
      && |issued| <= |pages| + 1
      && (|issued| == |pages| + 1 ==> |Page(rows, issued[|pages|], batch)| == 0)
    decreases total - offset
  {
    if !Stops(rows, total, batch, offset) {
      ReadOffsetsExtendPages(rows, total, batch, offset + batch);
      var issued, pages := ReadOffsets(rows, total, batch, offset), PageOffsets(rows, total, batch, offset);
      var issued', pages' := ReadOffsets(rows, total, batch, offset + batch), PageOffsets(rows, total, batch, offset + batch);
      assert issued == [offset] + issued' && pages == [offset] + pages';
      if |issued| == |pages| + 1 {
        assert issued[|pages|] == issued'[|pages'|];
      }
    }
  }

  /** The rows read are exactly the pages at the offsets read, and the migrated count is the sum of their lengths. */
  lemma {:induction false} CopiedRowsArePages<T>(rows: seq<T>, total: int, batch: nat, offset: nat)
    requires batch > 0
    ensures CopiedRows(rows, total, batch, offset) == ConcatPages(rows, batch, PageOffsets(rows, total, batch, offset))
    decreases total - offset
  {
    if !Stops(rows, total, batch, offset) {
      CopiedRowsArePages(rows, total, batch, offset + batch);
      var s := PageOffsets(rows, total, batch, offset);
      assert s[1..] == PageOffsets(rows, total, batch, offset + batch);
    }
  }

  function ConcatPages<T>(rows: seq<T>, batch: nat, offsets: seq<nat>): seq<T> {
    if offsets == [] then [] else Page(rows, offsets[0], batch) + ConcatPages(rows, batch, offsets[1..])
  }

  /**
   * The rows read form a contiguous run of the table starting at `offset`:
   * they cover at least every row below the counted total and never run past
   * the table's end.
   */
  lemma {:induction false} CopiedRowsSlice<T>(rows: seq<T>, total: int, batch: nat, offset: nat)
    requires batch > 0 && offset <= |rows|
    ensures var c := CopiedRows(rows, total, batch, offset);
      && offset + |c| <= |rows|
      && c == rows[offset..offset + |c|]
      && offset + |c| >= Min(total, |rows|)
    decreases total - offset
  {
    var c := CopiedRows(rows, total, batch, offset);
    var page := Page(rows, offset, batch);
    if Stops(rows, total, batch, offset) {
      assert c == [];
    } else {
      var next := Min(offset + batch, |rows|);
      assert page == rows[offset..next];
      if offset + batch <= |rows| {
        CopiedRowsSlice(rows, total, batch, offset + batch);
        var rest := CopiedRows(rows, total, batch, offset + batch);
        assert c == page + rest;
        assert rows[offset..offset + |c|] == rows[offset..next] + rows[next..next + |rest|];
      } else {
        var rest := CopiedRows(rows, total, batch, offset + batch);
        assert rest == [] by {
          assert |Page(rows, offset + batch, batch)| == 0;
        }
        assert c == page;
      }
    }
  }

  /** Against a table whose length is the counted total, a copy loop reads every row exactly once, in order. */
  lemma CopiedRowsComplete<T>(rows: seq<T>, batch: nat)
    requires batch > 0
    ensures CopiedRows(rows, |rows|, batch, 0) == rows
  {
    CopiedRowsSlice(rows, |rows|, batch, 0);
  }

  /** The query issued at some offset of `offsets` raises. */
  predicate SomeFails(offsets: seq<nat>, fails: nat -> bool) {
    exists o :: o in offsets && fails(o)
  }

  lemma SomeFailsCons(o: nat, rest: seq<nat>, fails: nat -> bool)
    ensures SomeFails([o] + rest, fails) <==> fails(o) || SomeFails(rest, fails)
  {
    if SomeFails([o] + rest, fails) && !fails(o) {
      var x :| x in [o] + rest && fails(x);
      assert x in rest;
    }
    if SomeFails(rest, fails) {
      var x :| x in rest && fails(x);
      assert x in [o] + rest;
    }
    if fails(o) {
      assert o in [o] + rest;
    }
  }

  /** A copy loop raises exactly when one of the reads it issues fails or the insert of one of the pages it reads fails. */
  lemma {:induction false} CopyFailsIff<T, D>(rows: seq<T>, total: int, batch: nat, offset: nat, f: T -> D,
                                              readFails: nat -> bool, insertFails: nat -> bool)
    requires batch > 0
    ensures Copy(rows, total, batch, offset, f, readFails, insertFails).failed
      <==> (SomeFails(ReadOffsets(rows, total, batch, offset), readFails)
            || SomeFails(PageOffsets(rows, total, batch, offset), insertFails))
    decreases total - offset
  {
    if offset < total {
      if |Page(rows, offset, batch)| == 0 {
        assert ReadOffsets(rows, total, batch, offset) == [offset] + [];
        SomeFailsCons(offset, [], readFails);
      } else {
        CopyFailsIff(rows, total, batch, offset + batch, f, readFails, insertFails);
        SomeFailsCons(offset, ReadOffsets(rows, total, batch, offset + batch), readFails);
        SomeFailsCons(offset, PageOffsets(rows, total, batch, offset + batch), insertFails);
      }
    }
  }

  /** Without a failing query a copy loop inserts the mapped rows it read; in any case no more records than rows read. */
  lemma {:induction false} CopyInsertsCopiedRows<T, D>(rows: seq<T>, total: int, batch: nat, offset: nat, f: T -> D,
                                                       readFails: nat -> bool, insertFails: nat -> bool)
    requires batch > 0
    ensures var run := Copy(rows, total, batch, offset, f, readFails, insertFails);
      && (!run.failed ==> run.inserted == Seqs.Map(CopiedRows(rows, total, batch, offset), f))
      && |run.inserted| <= |CopiedRows(rows, total, batch, offset)|
    decreases total - offset
  {
    if !Stops(rows, total, batch, offset) && !readFails(offset) && !insertFails(offset) {
      CopyInsertsCopiedRows(rows, total, batch, offset + batch, f, readFails, insertFails);
      Seqs.MapConcat(Page(rows, offset, batch), CopiedRows(rows, total, batch, offset + batch), f);
    }
  }

  /**
   * The copy loop's invariant: the whole run from offset 0 is the records
   * inserted so far followed by the run from `offset` on.
   */
  ghost predicate CopiedSoFar<T, D>(rows: seq<T>, total: int, batch: nat, offset: nat, f: T -> D,
                                    readFails: nat -> bool, insertFails: nat -> bool, inserted: seq<D>)
    requires batch > 0
  {
    var run := Copy(rows, total, batch, offset, f, readFails, insertFails);
    Copy(rows, total, batch, 0, f, readFails, insertFails) == CopyRun(inserted + run.inserted, run.failed)
  }

  /** One page copied: its records join those inserted so far. */
  lemma CopyStep<T, D>(rows: seq<T>, total: int, batch: nat, offset: nat, f: T -> D,
                       readFails: nat -> bool, insertFails: nat -> bool, inserted: seq<D>)
    requires batch > 0 && !Stops(rows, total, batch, offset) && !readFails(offset) && !insertFails(offset)
    requires CopiedSoFar(rows, total, batch, offset, f, readFails, insertFails, inserted)
    ensures CopiedSoFar(rows, total, batch, offset + batch, f, readFails, insertFails,
                        inserted + Seqs.Map(Page(rows, offset, batch), f))
  {
    var next := Copy(rows, total, batch, offset + batch, f, readFails, insertFails);
    var records := Seqs.Map(Page(rows, offset, batch), f);
    assert inserted + (records + next.inserted) == (inserted + records) + next.inserted;
  }

  /**
   * Where the loop ends, the whole run is what was inserted so far; it failed
   * exactly when this offset's read raised, or its page was non-empty and
   * its insert raised.
   */
  lemma CopyEnd<T, D>(rows: seq<T>, total: int, batch: nat, offset: nat, f: T -> D,
                      readFails: nat -> bool, insertFails: nat -> bool, inserted: seq<D>)
    requires batch > 0 && CopiedSoFar(rows, total, batch, offset, f, readFails, insertFails, inserted)
    requires Stops(rows, total, batch, offset) || readFails(offset) || insertFails(offset)
    ensures Copy(rows, total, batch, 0, f, readFails, insertFails)
      == CopyRun(inserted, offset < total && (readFails(offset) || (|Page(rows, offset, batch)| > 0 && insertFails(offset))))
  {
    assert inserted + [] == inserted;
  }

  /**
   * One `while (offset < total)` copy loop of `migrate_all`: returns the
   * migrated count (the sum of the page lengths) or the error of the read or
   * insert that raised, and the records inserted before it stopped.
   */
  method CopyTable<T, D>(rows: seq<T>, total: int, batchSize: nat, f: T -> D,
                         readFails: nat -> bool, insertFails: nat -> bool)
    returns (migrated: Result<nat>, inserted: seq<D>)
    requires batchSize > 0
    ensures var run := Copy(rows, total, batchSize, 0, f, readFails, insertFails);
      && inserted == run.inserted
      && (migrated.Err? <==> run.failed)
      && (migrated.Ok? ==> migrated.value == |run.inserted|)
  {
    var offset: nat := 0;
    var count: nat := 0;
    inserted := [];
    while offset < total
      invariant |inserted| == count
      invariant CopiedSoFar(rows, total, batchSize, offset, f, readFails, insertFails, inserted)
      decreases total - offset
    {
      if readFails(offset) {
        CopyEnd(rows, total, batchSize, offset, f, readFails, insertFails, inserted);
        migrated := Err("read error");
        return;
      }
      var page := Page(rows, offset, batchSize);
      if |page| == 0 {
        break;
      }
      var records := Seqs.Map(page, f);
      if insertFails(offset) {
        CopyEnd(rows, total, batchSize, offset, f, readFails, insertFails, inserted);
        migrated := Err("insertion error");
        return;
      }
      CopyStep(rows, total, batchSize, offset, f, readFails, insertFails, inserted);
      inserted := inserted + records;
      count := count + |page|;
      offset := offset + batchSize;
      // a short pause between pages (50 or 100 ms)
    }
    CopyEnd(rows, total, batchSize, offset, f, readFails, insertFails, inserted);
    migrated := Ok(count);
  }

  datatype Table = Projects | Conversations | Messages

  const ProjectBatchSize: nat := 10
  const ConversationBatchSize: nat := 15
  const MessageBatchSize: nat := 50

  /** The three `COUNT(*)` results (or the per-table migrated counts). */
  datatype TableCounts = TableCounts(projects: int, conversations: int, messages: int)

  /** The three source tables. */
  datatype Source = Source(projects: seq<ProjectRow>, conversations: seq<ConversationRow>, messages: seq<MessageRow>)

  /**
   * The outside world of one run: which page reads raise and which bulk
   * inserts raise, per table and offset.
   */
  datatype Faults = Faults(readFails: (Table, nat) -> bool, insertFails: (Table, nat) -> bool)

  /** What has been inserted into the destination tables. */
  datatype Destination = Destination(
    projects: seq<ProjectRecord>, conversations: seq<ConversationRecord>, messages: seq<MessageRecord>)

  function ProjectCopy(src: Source, totals: TableCounts, faults: Faults): CopyRun<ProjectRecord> {
    Copy(src.projects, totals.projects, ProjectBatchSize, 0, MapProject,
         (o: nat) => faults.readFails(Projects, o), (o: nat) => faults.insertFails(Projects, o))
  }

  function ConversationCopy(src: Source, totals: TableCounts, faults: Faults): CopyRun<ConversationRecord> {
    Copy(src.conversations, totals.conversations, ConversationBatchSize, 0, MapConversation,
         (o: nat) => faults.readFails(Conversations, o), (o: nat) => faults.insertFails(Conversations, o))
  }

  function MessageCopy(src: Source, totals: TableCounts, faults: Faults): CopyRun<MessageRecord> {
    Copy(src.messages, totals.messages, MessageBatchSize, 0, MapMessage,
         (o: nat) => faults.readFails(Messages, o), (o: nat) => faults.insertFails(Messages, o))
  }

  /**
   * `migrate_all`: the three `COUNT(*)` queries (`counts`, an error when one
   * of them raises), then the project loop, the conversation loop and the
   * message loop; the first failing query aborts the run (what was inserted
   * stays inserted); the counts are returned only when all three finish.
   */
  method MigrateAll(src: Source, counts: Result<TableCounts>, faults: Faults)
    returns (r: Result<TableCounts>, dest: Destination)
    ensures counts.Err? ==> r.Err? && dest == Destination([], [], [])
    ensures counts.Ok? ==>
      var totals := counts.value;
      var p, c, m := ProjectCopy(src, totals, faults), ConversationCopy(src, totals, faults), MessageCopy(src, totals, faults);
      && dest.projects == p.inserted
      && dest.conversations == (if p.failed then [] else c.inserted)
      && dest.messages == (if p.failed || c.failed then [] else m.inserted)
      && (r.Ok? <==> !p.failed && !c.failed && !m.failed)
      && (r.Ok? ==> r.value == TableCounts(|p.inserted|, |c.inserted|, |m.inserted|))
  {
    dest := Destination([], [], []);
    if counts.Err? {
      r := Err(counts.error);
      return;
    }
    var totals := counts.value;
    var projects, pRecords := CopyTable(src.projects, totals.projects, ProjectBatchSize, MapProject,
      (o: nat) => faults.readFails(Projects, o), (o: nat) => faults.insertFails(Projects, o));
    dest := dest.(projects := pRecords);
    if projects.Err? {
      r := Err(projects.error);
      return;
    }
    var conversations, cRecords := CopyTable(src.conversations, totals.conversations, ConversationBatchSize, MapConversation,
      (o: nat) => faults.readFails(Conversations, o), (o: nat) => faults.insertFails(Conversations, o));
    dest := dest.(conversations := cRecords);
    if conversations.Err? {
      r := Err(conversations.error);
      return;
    }
    var messages, mRecords := CopyTable(src.messages, totals.messages, MessageBatchSize, MapMessage,
      (o: nat) => faults.readFails(Messages, o), (o: nat) => faults.insertFails(Messages, o));
    dest := dest.(messages := mRecords);
    if messages.Err? {
      r := Err(messages.error);
      return;
    }
    r := Ok(TableCounts(projects.value, conversations.value, messages.value));
  }

  /** A copy loop that meets no failing query, against a table whose length is the counted total, copies every row in order. */
  lemma CopyComplete<T, D>(rows: seq<T>, batch: nat, f: T -> D, readFails: nat -> bool, insertFails: nat -> bool)
    requires batch > 0
    requires forall o :: !readFails(o) && !insertFails(o)
    ensures Copy(rows, |rows|, batch, 0, f, readFails, insertFails) == CopyRun(Seqs.Map(rows, f), false)
  {
    CopyFailsIff(rows, |rows|, batch, 0, f, readFails, insertFails);
    CopyInsertsCopiedRows(rows, |rows|, batch, 0, f, readFails, insertFails);
    CopiedRowsComplete(rows, batch);
  }

  /** A run in which no query fails, against tables whose lengths are the counted totals, copies every row of every table. */
  lemma MigrateAllComplete(src: Source, faults: Faults)
    requires forall t, o :: !faults.readFails(t, o) && !faults.insertFails(t, o)
    ensures var totals := TableCounts(|src.projects|, |src.conversations|, |src.messages|);
      && ProjectCopy(src, totals, faults) == CopyRun(Seqs.Map(src.projects, MapProject), false)
      && ConversationCopy(src, totals, faults) == CopyRun(Seqs.Map(src.conversations, MapConversation), false)
      && MessageCopy(src, totals, faults) == CopyRun(Seqs.Map(src.messages, MapMessage), false)
  {
    CopyComplete(src.projects, ProjectBatchSize, MapProject,
      (o: nat) => faults.readFails(Projects, o), (o: nat) => faults.insertFails(Projects, o));
    CopyComplete(src.conversations, ConversationBatchSize, MapConversation,
      (o: nat) => faults.readFails(Conversations, o), (o: nat) => faults.insertFails(Conversations, o));
    CopyComplete(src.messages, MessageBatchSize, MapMessage,
      (o: nat) => faults.readFails(Messages, o), (o: nat) => faults.insertFails(Messages, o));
  }

  /**
   * Twenty-five project rows in batches of ten are read at offsets 0, 10 and
   * 20, in pages of 10, 10 and 5 rows; when no query fails all 25 are
   * inserted, each through the project map.
   */
  lemma TwentyFiveProjects(rows: seq<ProjectRow>, readFails: nat -> bool, insertFails: nat -> bool)
    requires |rows| == 25
    ensures PageOffsets(rows, 25, ProjectBatchSize, 0) == [0, 10, 20]
    ensures |Page(rows, 0, 10)| == 10 && |Page(rows, 10, 10)| == 10 && |Page(rows, 20, 10)| == 5
    ensures (forall o :: !readFails(o) && !insertFails(o)) ==>
      Copy(rows, 25, ProjectBatchSize, 0, MapProject, readFails, insertFails) == CopyRun(Seqs.Map(rows, MapProject), false)
  {
    assert PageOffsets(rows, 25, 10, 30) == [];
    assert PageOffsets(rows, 25, 10, 20) == [20];
    assert PageOffsets(rows, 25, 10, 10) == [10, 20];
    if forall o :: !readFails(o) && !insertFails(o) {
      CopyComplete(rows, ProjectBatchSize, MapProject, readFails, insertFails);
    }
  }

  /** `count || 0` on a destination count that may be null. */
  function CountOrZero(count: Option<int>): (n: int)
    ensures count.None? ==> n == 0
    ensures count.Some? ==> n == count.value
  {
    match count
    case None => 0
    case Some(c) => if c != 0 then c else 0
  }

  datatype Stats = Stats(mysql: TableCounts, supabase: TableCounts)

  /**
   * `get_stats`: the source counts as returned, or the error of a `COUNT(*)`
   * query that raised; the destination counts with null read as 0 (a failing
   * destination count comes back as null, not as an error).
   */
  function GetStats(mysql: Result<TableCounts>, projects: Option<int>, conversations: Option<int>, messages: Option<int>): (r: Result<Stats>)
    ensures r.Err? <==> mysql.Err?
    ensures r.Ok? ==> r.value.mysql == mysql.value
    ensures r.Ok? ==> r.value.supabase == TableCounts(CountOrZero(projects), CountOrZero(conversations), CountOrZero(messages))
  {
    match mysql
    case Err(e) => Err(e)
    case Ok(counts) => Ok(Stats(counts, TableCounts(CountOrZero(projects), CountOrZero(conversations), CountOrZero(messages))))
  }

  /** An empty destination next to a source of 3, 7 and 40 rows; a failing source count fails the report. */
  lemma EmptyDestinationStats()
    ensures GetStats(Ok(TableCounts(3, 7, 40)), Some(0), Some(0), Some(0)) == Ok(Stats(TableCounts(3, 7, 40), TableCounts(0, 0, 0)))
    ensures GetStats(Ok(TableCounts(3, 7, 40)), None, None, None) == Ok(Stats(TableCounts(3, 7, 40), TableCounts(0, 0, 0)))
    ensures GetStats(Err("no such table"), Some(5), Some(5), Some(5)).Err?
  {
  }
}
