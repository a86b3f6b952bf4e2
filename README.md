# Zed lake maintenance tasks and Zeek TSV writer, modelled in Dafny

This project models three pieces of the Zed repository.

- **Branch maintenance** (`LakeManage`, lakemanage.dfy). This covers `cmd/zed/manage/lakemanage/branch.go`.
  - `NewBranch` builds a branch's task list from the configuration: compaction unless it is disabled, then indexing when it is enabled.
  - `Branch.Head` resolves the commit the branch points at.
  - `Branch.RunCompact` and `Branch.RunIndex` are the consumer loops of the compaction and indexing tasks. Each loop makes exactly one lake call per work item and stops at the first rejected call. It keeps the counters the completion log reports and picks that log line's level. After a full drain it returns the scan's `nextcold` and error.
  - The lake (`LookupBranchByName`, `Compact`, `ApplyIndexRules`), the object iterator, the scans and the configuration resolver are parameters. Each parameter holds the answer that collaborator gives.
  - A lake sink is a function from (call number, call arguments) to a commit or an error. Each loop returns the list of calls it made, so the model can state what the lake was asked.
- **Zeek TSV writer** (`ZeekIO`, zeekio.dfy). This covers `pkg/zio/zeekio/writer.go`.
  - `Writer` is a class. It holds the remembered header fields, the last descriptor, the timestamp precision and the text written so far.
  - `Write` flattens a record and writes a header when the descriptor or `_path` changed. It then writes the row without its `_path` column.
  - `WriteHeader` (with its parts `UpdateHeader` and `ColumnsLine`) writes only the header lines whose value changed.
  - Descriptors are objects compared by identity, as the Go pointers are. Flattening and `ZeekStrings` are parameters.
- **zio helpers** (`Zio`, zio.dfy). This covers `pkg/zio/zio.go`.
  - `Extension` is the format-to-extension table.
  - `Writer.Close` always flushes and then closes. The flush error takes precedence over the close error.

`Base` (base.dfy) holds the `Error`, `Option` and `Result` types shared by the three modules.

The model keeps these behaviours of the code:
- On a completed drain, a task returns the scan's `nextcold` together with the scan's error, and both may be set.
- When a lake call fails, the task returns without cancelling the scan. The object iterator is closed (compaction only), but the scanning goroutine is not stopped.
- A run with no objects is not refused.
- The writer compares and stores the separator as the four characters `\x90`, but writes `#separator \x09`. Because the stored value is compared only with itself, the directive is still written exactly once.

## Model

| member | source | states |
|---|---|---|
| `LakeManage.NewBranch` | cmd/zed/manage/lakemanage/branch.go:27-51 | If the pool configuration fails to resolve, no branch is returned and the error is returned unchanged. Otherwise the branch holds the resolved name and settings. It has a compaction task iff compaction is not disabled and an indexing task iff indexing is enabled. Compaction always precedes indexing, with no duplicates. |
| `LakeManage.Branch.constructor` | cmd/zed/manage/lakemanage/branch.go:32-43 | A new branch holds the pool, the resolved branch name and the two task configurations, and has no tasks yet. |
| `LakeManage.Branch.Head` | cmd/zed/manage/lakemanage/branch.go:53-59 | The lookup is made with the pool's name and the branch's name. On failure the result is the nil KSUID with the lookup error. Otherwise it is the branch's commit with no error. |
| `LakeManage.Branch.CompactCalls` | cmd/zed/manage/lakemanage/branch.go:93-94 | There is one Compact call per run, in stream order. Each call names the branch's pool and branch and carries the run's object IDs. |
| `LakeManage.Branch.IndexCalls` | cmd/zed/manage/lakemanage/branch.go:129-130 | There is one ApplyIndexRules call per object, in stream order. Each call carries that object's missing rules and a single object ID. |
| `LakeManage.Accepted` | cmd/zed/manage/lakemanage/branch.go:94-97 | This is the number of calls accepted before the first rejected one. Every earlier call succeeds, and the call at that index (if any) fails. |
| `LakeManage.Branch.RunCompact` | cmd/zed/manage/lakemanage/branch.go:77-108 | If opening the iterator fails, the result is (nil, that error) and no Compact call is made. Otherwise calls go one per run in order, up to and including the first rejected one. `found` is the number of committed runs and `compacted` is the sum of their sizes. A rejection yields (nil, the lake's error) and no completion log. A full drain yields the scan's (nextcold, error) and a log at Info iff `compacted > 0`, else Debug. That is, Info iff some drained run held an object. |
| `LakeManage.Branch.RunIndex` | cmd/zed/manage/lakemanage/branch.go:117-144 | Calls go one per object in order, up to and including the first rejected one. `objects` is the number of indexed objects and `newindexes` is the sum of their missing rules. A rejection yields (nil, the lake's error) and no completion log. A full drain yields the scan's (nextcold, error) and a log at Info iff `objects > 0`, else Debug. That is, Info iff the scan delivered at least one item. |
| `LakeManage.TotalSizeAppend` | cmd/zed/manage/lakemanage/branch.go:98-99 | A counter summed over a stream is additive over concatenation. Draining one more item adds exactly that item's size. |
| `LakeManage.TotalSizeZero` | cmd/zed/manage/lakemanage/branch.go:102-105 | A counter total is zero iff every drained item contributes zero. |
| `ZeekIO.Writer.constructor` | pkg/zio/zeekio/writer.go:24-31 | A new writer has precision 6, an empty header state, no descriptor and no output. |
| `ZeekIO.Writer.Write` | pkg/zio/zeekio/writer.go:33-57 | If flattening fails, that error is returned and nothing changes. Otherwise a header is written iff the descriptor or path differs from the remembered one. Afterwards the descriptor is the record's and the header state is settled on the record's path. If `ZeekStrings` fails, its error follows the header. Otherwise the row follows the header and precision becomes 9 only on request. Precision never goes back from 9, and the writer invariant is kept. |
| `ZeekIO.Writer.WriteHeader` | pkg/zio/zeekio/writer.go:59-105 | The output grows by the directives still owed, then the `#path` line if the path changed, then the `#fields` and `#types` lines if the descriptor changed. The header state is settled on the new path, and the descriptor and precision are untouched. |
| `ZeekIO.Writer.UpdateHeader` | pkg/zio/zeekio/writer.go:62-84 | Each of the four directives is written iff its field differs from its constant, and the field is then set. The `#path` line is written iff the path changed, with `-` for an empty path. |
| `ZeekIO.ColumnsLine` | pkg/zio/zeekio/writer.go:85-102 | A header line is its heading, then each column not named `_path` in order, preceded by a tab, then a newline. |
| `ZeekIO.ListedIsTabbed` | pkg/zio/zeekio/writer.go:86-92 | The text a header loop builds column by column is the heading followed by the tab-prefixed list of the columns not named `_path`, in order. |
| `ZeekIO.Row` | pkg/zio/zeekio/writer.go:50-54 | A data line is the values joined by tabs and ended by a newline, with the value at the `_path` column's index removed when there is one. |
| `ZeekIO.DirectivesOnce` | pkg/zio/zeekio/writer.go:62-77 | A fresh header state owes all four directive lines in order. A settled one owes none, so they appear only in the first header. |
| `ZeekIO.HeaderWhenChanged` | pkg/zio/zeekio/writer.go:78-102 | When the descriptor or the path changed, the header written is not empty. |
| `ZeekIO.HeaderIdempotent` | pkg/zio/zeekio/writer.go:62-102 | Writing a header again, for the same descriptor and path, writes nothing. |
| `ZeekIO.Visible` | pkg/zio/zeekio/writer.go:87-90 | The header's columns number the descriptor's columns minus those named `_path`. |
| `ZeekIO.VisibleMembers` | pkg/zio/zeekio/writer.go:87-91 | A column appears in the header iff it is a descriptor column not named `_path`. |
| `ZeekIO.VisibleAppend` | pkg/zio/zeekio/writer.go:87-101 | Skipping `_path` columns distributes over concatenation, so the header keeps the columns' order. |
| `ZeekIO.ColumnOf` | pkg/zio/zeekio/writer.go:50 | The `_path` column is found at the first index with that name, and is absent iff no column has that name. |
| `ZeekIO.RemoveAt` | pkg/zio/zeekio/writer.go:50-53 | Splicing out index `i` leaves one value fewer. The values before `i` are kept and the later ones shift down by one. |
| `ZeekIO.PathCountZero` | pkg/zio/zeekio/writer.go:88 | No column is skipped iff no column is named `_path`. |
| `ZeekIO.RowMatchesHeader` | pkg/zio/zeekio/writer.go:50-54 | With at most one `_path` column, a row has as many fields as the `#fields` line names. That is one fewer than the descriptor's columns when `_path` is present. |
| `ZeekIO.TabbedIsJoin` | pkg/zio/zeekio/writer.go:54 | A header line's tab-prefixed list equals a tab followed by the tab-joined fields, the form of a row. |
| `Zio.Extension` | pkg/zio/zio.go:37-56 | The result is empty iff the format is not one of the seven known formats. Otherwise it starts with `.`. |
| `Zio.ExtensionTable` | pkg/zio/zio.go:38-52 | Each known format maps to its extension: zng→.zng, zeek→.log, ndjson and zjson→.ndjson, text→.txt, table→.tbl, bzng→.bzng. |
| `Zio.ExtensionShared` | pkg/zio/zio.go:43-46 | Two different known formats share an extension iff they are "ndjson" and "zjson", so the mapping is not injective. |
| `Zio.NewWriter` | pkg/zio/zio.go:21-26 | The writer holds the given flushing writer and closer unchanged. |
| `Zio.Writer.Close` | pkg/zio/zio.go:28-35 | Flush and then close are always both performed. The result is the flush error when there is one, otherwise the close error. It succeeds iff both succeed. |

## Left out

- The goroutine and channel between each scan and its consumer loop are not modelled. The stream is the finite sequence of items the scan delivered, and its `(nextcold, err)` arrives after the last item. Cancellation through the context is not modelled either.
- `LakeManage.Branch.RunCompact` and `LakeManage.Branch.RunIndex`: when the loop returns early on a rejected call, the scanning goroutine is left blocked sending on the unbuffered channel. Nothing here can express that. The `defer it.Close()` on the compaction iterator is not modelled either.
- `LakeManage.Branch.RunCompact` and `LakeManage.Branch.RunIndex`: the head commit `at` is only passed on to the iterator and the scans, which are parameters here, so the methods do not take it.
- `CompactionScan`, `IndexScan`, `NewPoolDataObjectIterator`, `LookupBranchByName`, `Compact` and `ApplyIndexRules` are not part of this model. Their code is not available, so their outcomes are inputs. The cold-threshold computation behind `nextcold` is not modelled for the same reason.
- `Config.poolConfig` and `IndexConfig.Enabled` are not part of this model. Their results are inputs: the resolved settings and a boolean.
- `Run.ObjectIDs` is not part of this model. `LakeManage.ObjectIDs` assumes it returns the IDs of `run.Objects`, one per object, in order. That assumption ties the IDs sent to `Compact` to the `len(run.Objects)` added to `compacted`.
- zap logging (`MarshalLogObject`, `logger()`, logger naming, the per-item debug lines) is not modelled. Only the completion line's level is kept, as an output.
- The scheduler that calls `head` and each task's `run` in turn is not in these files and is not modelled.
- `time.Time` values are opaque. No time arithmetic is modelled.
- `ZeekIO.Writer.Write`: failures of the underlying `io.Writer` are not modelled, so writing output always succeeds. The output is one growing string rather than bytes.
- `ZeekIO.Writer.WriteHeader`: it returns no error. The source's `writeHeader` error comes only from the `io.Writer`, and `Write` discards it anyway.
- `ZeekIO.Writer.Write` requires that, when the record has a `_path` column at index `i`, `ZeekStrings` returns more than `i` values. Otherwise the Go splice `values[i+1:]` panics, and a panic is not modelled. With no `_path` column, any number of values is accepted. `ZeekIO.RowMatchesHeader` further assumes one value per column.
- `Flattener.Flatten`, `Record.ZeekStrings` and `Record.AccessString` are not modelled. Their results are inputs; a record's path is "" when it has no `_path` field. `ColumnOfField` is modelled as the first column with the name. Column types appear as the strings `%s` prints.
- The writer flags other than `UTF8` are unused by this writer and are left out.
- `zng.WriteFlusher` and `io.Closer` are opaque handles. What flushing and closing them return is given to `Close`.
