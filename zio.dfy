/**
  Helpers shared by the record writers: the file extension of each output format,
  and a writer that pairs a flushing writer with the closer of its destination.
*/
module Zio {
  import opened Base

  /** The output formats that have a file extension. */
  const Formats: set<string> := {"zng", "zeek", "ndjson", "zjson", "text", "table", "bzng"}

  /** `Extension`: the file extension for an output format, or "" for a format it does not know. */
  function Extension(format: string): (ext: string)
    ensures ext == "" <==> format !in Formats
    ensures ext != "" ==> |ext| > 1 && ext[0] == '.'
  {
    if format == "zng" then ".zng"
    else if format == "zeek" then ".log"
    else if format == "ndjson" then ".ndjson"
    else if format == "zjson" then ".ndjson"
    else if format == "text" then ".txt"
    else if format == "table" then ".tbl"
    else if format == "bzng" then ".bzng"
    else ""
  }

  /** The extension of each known format. */
  lemma ExtensionTable()
    ensures Extension("zng") == ".zng" && Extension("zeek") == ".log"
    ensures Extension("ndjson") == ".ndjson" && Extension("zjson") == ".ndjson"
    ensures Extension("text") == ".txt" && Extension("table") == ".tbl" && Extension("bzng") == ".bzng"
  {
  }

  /** Two different formats share an extension only when they are "ndjson" and "zjson",
      which do: the mapping is not injective. */
  lemma ExtensionShared(a: string, b: string)
    requires a != b && Extension(a) != ""
    ensures Extension(a) == Extension(b) <==> {a, b} == {"ndjson", "zjson"}
  {
  }

  /** The two operations `Close` performs, in the order it performs them. */
  datatype Step = Flushed | Closed

  /** `zio.Writer`: a flushing record writer and the closer of its destination. The two
      are opaque handles; what flushing or closing them returns is given to `Close`. */
  datatype Writer<W, C> = Writer(writeFlusher: W, closer: C)
  {
    /**
      `Close`. `flush(w)` and `close(c)` are the errors that flushing `w` and closing `c`
      return. Both are always done, flush first, and the flush error wins.
    */
    method Close(flush: W -> Option<Error>, close: C -> Option<Error>) returns (err: Option<Error>, steps: seq<Step>)
      ensures steps == [Flushed, Closed]
      ensures flush(writeFlusher).Some? ==> err == flush(writeFlusher)
      ensures flush(writeFlusher).None? ==> err == close(closer)
      ensures err.None? <==> flush(writeFlusher).None? && close(closer).None?
    {
      err := flush(writeFlusher);
      steps := [Flushed];
      var cerr := close(closer);
      steps := steps + [Closed];
      if err.None? {
        err := cerr;
      }
    }
  }

  /** `NewWriter`: a writer holding the given flushing writer and closer unchanged. */
  function NewWriter<W, C>(writer: W, closer: C): (w: Writer<W, C>)
    ensures w.writeFlusher == writer && w.closer == closer
  {
    Writer(writer, closer)
  }
}
