/**
 * `formatar_mensagem_texto`: turns the extracted per-line records into the
 * text of the daily message. Records are sorted by line id, each gets a
 * status mark from its photo percentage and four text lines, after a
 * two-line header. Parsing a percentage (`float`) and rendering it with one
 * decimal (`{:.1f}`) are given as functions; a text that `float` rejects
 * raises `ValueError`, which leaves the formatter.
 */
module Report {
  import opened Base
  import opened Strings
  import opened Sorting

  /** One extracted line: its id and the two percentages as the page shows them. */
  datatype Record = Record(linha: string, fotosPct: string, pendenciasPct: string)

  /** The status mark at the head of a record's block. */
  datatype Mark = Good | Warning | Critical

  /** The fixed thresholds on the photo percentage. */
  function Classify(fotos: real): (m: Mark)
    ensures m == Good <==> fotos > 90.0
    ensures m == Warning <==> 70.0 < fotos <= 90.0
    ensures m == Critical <==> fotos <= 70.0
  {
    if fotos > 90.0 then Good else if fotos > 70.0 then Warning else Critical
  }

  /** The boundary values of the thresholds. */
  lemma ClassifyBoundaries()
    ensures Classify(90.1) == Good
    ensures Classify(90.0) == Warning && Classify(70.1) == Warning
    ensures Classify(70.0) == Critical && Classify(0.0) == Critical
  {
  }

  function Emoji(m: Mark): string
  {
    match m
    case Good => "\U{2705}"
    case Warning => "\U{26A0}\U{FE0F}"
    case Critical => "\U{274C}"
  }

  /** The sort key `x.get('linha', '')`. */
  function LineKey(r: Record): string
  {
    r.linha
  }

  /** The two header lines naming the date searched. */
  function Header(date: string): seq<string>
  {
    ["\U{1F4CA} *Resumo de Fotos e Pend\U{EA}ncias: " + date + "*", ""]
  }

  /** The first line of a record's block. */
  function TitleLine(r: Record, fotos: real): string
  {
    Emoji(Classify(fotos)) + " *LINHA: " + r.linha + "*"
  }

  /** Both percentages of a record are accepted by `float`. */
  predicate Parses(r: Record, parse: string -> Option<real>)
  {
    parse(r.fotosPct).Some? && parse(r.pendenciasPct).Some?
  }

  /** A record's four lines, or `None` when `float` rejects one of its percentages. */
  function Block(r: Record, parse: string -> Option<real>, render: real -> string): Option<seq<string>>
  {
    if !Parses(r, parse) then None
    else
      var f := parse(r.fotosPct).value;
      var p := parse(r.pendenciasPct).value;
      Some([TitleLine(r, f), "  - _Fotos_: " + render(f) + "%", "  - _Pend\U{EA}ncias_: " + render(p) + "%", ""])
  }

  /** The records' blocks in order, or `None` once one record's percentages do not parse. */
  function Blocks(rs: seq<Record>, parse: string -> Option<real>, render: real -> string): Option<seq<string>>
  {
    if rs == [] then Some([])
    else
      var pre := Blocks(rs[..|rs| - 1], parse, render);
      var b := Block(rs[|rs| - 1], parse, render);
      if pre.Some? && b.Some? then Some(pre.value + b.value) else None
  }

  /** What `formatar_mensagem_texto` gives back, including the exception it lets through. */
  datatype Formatted = NoMessage | Message(text: string) | ValueError

  /** The message lines before joining: the header and the sorted records' blocks. */
  function Parts(dados: seq<Record>, date: string, parse: string -> Option<real>, render: real -> string): Option<seq<string>>
  {
    match Blocks(SortBy(dados, LineKey), parse, render)
    case Some(b) => Some(Header(date) + b)
    case None => None
  }

  /** `formatar_mensagem_texto(dados, date)`. */
  function Format(dados: seq<Record>, date: string, parse: string -> Option<real>, render: real -> string): Formatted
  {
    match Parts(dados, date, parse, render)
    case None => ValueError
    case Some(parts) => if |parts| <= 2 then NoMessage else Message(Join(parts, "\n"))
  }

  /** The formatter's loop, appending each sorted record's lines to the header. */
  method FormatMessage(dados: seq<Record>, date: string, parse: string -> Option<real>, render: real -> string)
    returns (r: Formatted)
    ensures r == Format(dados, date, parse, render)
  {
    var ordered := SortBy(dados, LineKey);
    var parts := Header(date);
    var i := 0;
    assert ordered[..0] == [] && parts[2..] == [];
    assert Blocks([], parse, render) == Some([]);
    while i < |ordered|
      invariant 0 <= i <= |ordered|
      invariant |parts| >= 2 && parts[..2] == Header(date)
      invariant Blocks(ordered[..i], parse, render) == Some(parts[2..])
    {
      var item := ordered[i];
      var fotos := parse(item.fotosPct);
      var pendencias := parse(item.pendenciasPct);
      if fotos.None? || pendencias.None? {
        BlocksFail(ordered, parse, render, i);
        FormatFromBlocks(dados, date, parse, render, parts);
        return ValueError;
      }
      var block := [TitleLine(item, fotos.value),
                    "  - _Fotos_: " + render(fotos.value) + "%",
                    "  - _Pend\U{EA}ncias_: " + render(pendencias.value) + "%",
                    ""];
      BlocksAppend(ordered, parse, render, i, date, parts, block);
      parts := parts + block;
      i := i + 1;
    }
    assert ordered[..i] == ordered;
    FormatFromBlocks(dados, date, parse, render, parts);
    if |parts| <= 2 {
      return NoMessage;
    }
    r := Message(Join(parts, "\n"));
  }

  /** How `Format` follows from the blocks of the sorted records. */
  lemma FormatFromBlocks(dados: seq<Record>, date: string, parse: string -> Option<real>, render: real -> string, parts: seq<string>)
    requires |parts| >= 2 && parts[..2] == Header(date)
    requires var b := Blocks(SortBy(dados, LineKey), parse, render); b.None? || b == Some(parts[2..])
    ensures var b := Blocks(SortBy(dados, LineKey), parse, render);
      Format(dados, date, parse, render) ==
        if b.None? then ValueError
        else if |parts| <= 2 then NoMessage
        else Message(Join(parts, "\n"))
  {
    assert parts == Header(date) + parts[2..];
  }

  /** Extending a prefix by one record extends its blocks by that record's block. */
  lemma BlocksStep(rs: seq<Record>, parse: string -> Option<real>, render: real -> string, i: nat)
    requires i < |rs|
    ensures Blocks(rs[..i + 1], parse, render) ==
      if Blocks(rs[..i], parse, render).Some? && Block(rs[i], parse, render).Some?
      then Some(Blocks(rs[..i], parse, render).value + Block(rs[i], parse, render).value)
      else None
  {
    assert rs[..i + 1][..i] == rs[..i];
  }

  /** A record whose percentages do not parse makes the whole list fail. */
  lemma BlocksFail(rs: seq<Record>, parse: string -> Option<real>, render: real -> string, i: nat)
    requires i < |rs| && !Parses(rs[i], parse)
    ensures Blocks(rs, parse, render).None?
  {
    BlocksStep(rs, parse, render, i);
    BlocksStayFailed(rs, parse, render, i + 1);
  }

  /** Appending the next record's four lines keeps the loop's lines equal to header plus blocks. */
  lemma BlocksAppend(rs: seq<Record>, parse: string -> Option<real>, render: real -> string, i: nat,
                     date: string, parts: seq<string>, block: seq<string>)
    requires i < |rs| && Parses(rs[i], parse)
    requires block == [TitleLine(rs[i], parse(rs[i].fotosPct).value),
                       "  - _Fotos_: " + render(parse(rs[i].fotosPct).value) + "%",
                       "  - _Pend\U{EA}ncias_: " + render(parse(rs[i].pendenciasPct).value) + "%",
                       ""]
    requires |parts| >= 2 && parts[..2] == Header(date)
    requires Blocks(rs[..i], parse, render) == Some(parts[2..])
    ensures |parts + block| >= 2 && (parts + block)[..2] == Header(date)
    ensures Blocks(rs[..i + 1], parse, render) == Some((parts + block)[2..])
  {
    BlocksStep(rs, parse, render, i);
    assert Block(rs[i], parse, render) == Some(block);
    assert (parts + block)[2..] == parts[2..] + block;
  }

  /** Once a prefix fails to parse, every longer prefix fails too. */
  lemma {:induction false} BlocksStayFailed(rs: seq<Record>, parse: string -> Option<real>, render: real -> string, n: nat)
    requires n <= |rs| && Blocks(rs[..n], parse, render).None?
    ensures Blocks(rs, parse, render).None?
    decreases |rs| - n
  {
    if n < |rs| {
      assert rs[..n + 1][..n] == rs[..n];
      BlocksStayFailed(rs, parse, render, n + 1);
    } else {
      assert rs[..n] == rs;
    }
  }

  /** The blocks exist exactly when every record's percentages parse. */
  lemma {:induction false} BlocksDefined(rs: seq<Record>, parse: string -> Option<real>, render: real -> string)
    ensures Blocks(rs, parse, render).Some? <==> forall k :: 0 <= k < |rs| ==> Parses(rs[k], parse)
  {
    if rs != [] {
      var pre := rs[..|rs| - 1];
      BlocksDefined(pre, parse, render);
      assert forall k :: 0 <= k < |pre| ==> pre[k] == rs[k];
    }
  }

  /**
   * Existing blocks have four lines per record, the k-th block opening with
   * the k-th record's mark and line id and closing with an empty line.
   */
  lemma {:induction false} BlocksShape(rs: seq<Record>, parse: string -> Option<real>, render: real -> string)
    requires Blocks(rs, parse, render).Some?
    ensures var b := Blocks(rs, parse, render).value;
      |b| == 4 * |rs| &&
      forall k :: 0 <= k < |rs| ==>
        Parses(rs[k], parse) && b[4 * k] == TitleLine(rs[k], parse(rs[k].fotosPct).value) && b[4 * k + 3] == ""
  {
    if rs != [] {
      var n := |rs| - 1;
      var pre := rs[..n];
      var bp := Blocks(pre, parse, render).value;
      var bl := Block(rs[n], parse, render).value;
      BlocksShape(pre, parse, render);
      var b := bp + bl;
      forall k | 0 <= k < |rs|
        ensures Parses(rs[k], parse) && b[4 * k] == TitleLine(rs[k], parse(rs[k].fotosPct).value) && b[4 * k + 3] == ""
      {
        if k < n {
          assert pre[k] == rs[k];
          assert b[4 * k] == bp[4 * k] && b[4 * k + 3] == bp[4 * k + 3];
        } else {
          assert b[4 * k] == bl[0] && b[4 * k + 3] == bl[3];
        }
      }
    }
  }

  /**
   * `formatar_mensagem_texto` returns `None` exactly when there are no
   * records, and raises exactly when some record's percentage is not a number.
   */
  lemma FormatOutcome(dados: seq<Record>, date: string, parse: string -> Option<real>, render: real -> string)
    ensures Format(dados, date, parse, render) == NoMessage <==> dados == []
    ensures Format(dados, date, parse, render) == ValueError <==> exists k :: 0 <= k < |dados| && !Parses(dados[k], parse)
  {
    var sorted := SortBy(dados, LineKey);
    BlocksDefined(sorted, parse, render);
    if exists k :: 0 <= k < |dados| && !Parses(dados[k], parse) {
      var k :| 0 <= k < |dados| && !Parses(dados[k], parse);
      assert dados[k] in multiset(sorted);
      var j :| 0 <= j < |sorted| && sorted[j] == dados[k];
      assert !Parses(sorted[j], parse);
    }
    if exists j :: 0 <= j < |sorted| && !Parses(sorted[j], parse) {
      var j :| 0 <= j < |sorted| && !Parses(sorted[j], parse);
      assert sorted[j] in multiset(dados);
      var k :| 0 <= k < |dados| && dados[k] == sorted[j];
      assert !Parses(dados[k], parse);
    }
  }

  /**
   * The records the message lists are the input records, each exactly as
   * often as it occurs (a permutation), in ascending order of line id.
   */
  lemma ListedInOrder(dados: seq<Record>)
    ensures var listed := SortBy(dados, LineKey);
      && multiset(listed) == multiset(dados)
      && forall i, j :: 0 <= i < j < |listed| ==> Le(listed[i].linha, listed[j].linha)
  {
    var listed := SortBy(dados, LineKey);
    assert forall i, j :: 0 <= i < j < |listed| ==> Le(LineKey(listed[i]), LineKey(listed[j]));
  }

  /**
   * Under the two-line header, the message has one four-line block per
   * record of the sorted list, the k-th opening with the k-th record's mark
   * and line id and closing with an empty line.
   */
  lemma FormatLayout(dados: seq<Record>, date: string, parse: string -> Option<real>, render: real -> string)
    requires Parts(dados, date, parse, render).Some?
    ensures Parts(dados, date, parse, render).value[..2] == Header(date)
    ensures var parts := Parts(dados, date, parse, render).value;
      var listed := SortBy(dados, LineKey);
      |parts| == 2 + 4 * |dados| &&
      forall k :: 0 <= k < |dados| ==>
        Parses(listed[k], parse) &&
        parts[2 + 4 * k] == TitleLine(listed[k], parse(listed[k].fotosPct).value) && parts[5 + 4 * k] == ""
  {
    var listed := SortBy(dados, LineKey);
    var b := Blocks(listed, parse, render).value;
    var parts := Header(date) + b;
    assert Parts(dados, date, parse, render).value == parts;
    BlocksShape(listed, parse, render);
    assert parts[..2] == Header(date);
    forall k | 0 <= k < |dados|
      ensures Parses(listed[k], parse)
      ensures parts[2 + 4 * k] == TitleLine(listed[k], parse(listed[k].fotosPct).value)
      ensures parts[5 + 4 * k] == ""
    {
      assert parts[2 + 4 * k] == b[4 * k];
      assert parts[5 + 4 * k] == b[4 * k + 3];
    }
  }
}
