/**
 * What the daily script reads off the dashboard page: the value of a
 * progress bar from its `style` attribute (`_extrair_valor_progresso`) and
 * the records of the target lines (`extrair_dados_das_linhas`). The page
 * itself is given as the list of its cards, each with its title and the
 * `style` attributes of its progress bars.
 */
module Dashboard {
  import opened Base
  import opened Strings
  import opened Report

  /** The custom property a progress bar's style carries its value in. */
  const ValueTag: string := "--value:"

  /** The production lines the report covers, `LINHAS_ALVO`. */
  const LinhasAlvo: seq<string> := [
    "1017-10", "1020-10", "1024-10", "1025-10", "1026-10",
    "8015-10", "8016-10", "848L-10", "9784-10"
  ]

  /** A part holding the tag holds a colon, so it splits into at least two pieces. */
  lemma TaggedPartHasColon(part: string)
    requires Contains(part, ValueTag)
    ensures |Split(part, ':')| >= 2
  {
    ContainsAt(part, ValueTag);
    var i :| OccursAt(part, ValueTag, i);
    assert part[i + 7] == ValueTag[7] == ':';
    SplitAtSeparator(part, ':');
  }

  /** `part.split(':')[1].strip()`: the text between the part's first and second colon. */
  function ValueOf(part: string): string
    requires Contains(part, ValueTag)
  {
    TaggedPartHasColon(part);
    Strip(Split(part, ':')[1])
  }

  /** The scan over the `;`-separated parts: the value of the first tagged part, else "0". */
  function FirstValue(parts: seq<string>): string
  {
    if parts == [] then "0"
    else if Contains(parts[0], ValueTag) then ValueOf(parts[0])
    else FirstValue(parts[1..])
  }

  /**
   * `_extrair_valor_progresso(style)`. A missing attribute (`None`) makes
   * `split` raise, which the bare `except` turns into "0".
   */
  function ProgressValue(style: Option<string>): string
  {
    match style
    case None => "0"
    case Some(s) => FirstValue(Split(s, ';'))
  }

  /** No part holds the tag. */
  predicate NoTag(parts: seq<string>)
  {
    forall k :: 0 <= k < |parts| ==> !Contains(parts[k], ValueTag)
  }

  /** Part `k` is the first that holds the tag. */
  predicate FirstTag(parts: seq<string>, k: int)
  {
    0 <= k < |parts| && Contains(parts[k], ValueTag) && forall j :: 0 <= j < k ==> !Contains(parts[j], ValueTag)
  }

  lemma {:induction false} FirstValueSpec(parts: seq<string>)
    ensures NoTag(parts) ==> FirstValue(parts) == "0"
    ensures forall k :: FirstTag(parts, k) ==> FirstValue(parts) == ValueOf(parts[k])
  {
    if parts != [] {
      var tail := parts[1..];
      FirstValueSpec(tail);
      if NoTag(parts) {
        assert NoTag(tail) by {
          forall k | 0 <= k < |tail| ensures !Contains(tail[k], ValueTag) {
            assert tail[k] == parts[k + 1];
          }
        }
      }
      forall k | FirstTag(parts, k)
        ensures FirstValue(parts) == ValueOf(parts[k])
      {
        if k > 0 {
          assert !Contains(parts[0], ValueTag);
          assert tail[k - 1] == parts[k];
          assert FirstTag(tail, k - 1) by {
            forall j | 0 <= j < k - 1 ensures !Contains(tail[j], ValueTag) {
              assert tail[j] == parts[j + 1];
            }
          }
        }
      }
    }
  }

  /**
   * The progress value is the stripped text between the first and second
   * colon of the first `;`-part containing `--value:`, and "0" when no part
   * contains it or the attribute is missing.
   */
  lemma ProgressValueSpec(style: Option<string>)
    ensures style.None? ==> ProgressValue(style) == "0"
    ensures style.Some? && NoTag(Split(style.value, ';')) ==> ProgressValue(style) == "0"
    ensures forall k :: style.Some? && FirstTag(Split(style.value, ';'), k) ==>
      ProgressValue(style) == ValueOf(Split(style.value, ';')[k])
  {
    if style.Some? {
      FirstValueSpec(Split(style.value, ';'));
    }
  }

  /** A card of the page: its `h2` title and its bars' `style` attributes, or one that raises while read. */
  datatype Card = Card(title: string, bars: seq<Option<string>>) | Faulty

  /** A card is reported when it could be read and its title is a target line. */
  predicate IsTarget(c: Card)
  {
    c.Card? && c.title in LinhasAlvo
  }

  /** The record of a target card; both percentages stay "0" with fewer than two bars. */
  function RecordOf(c: Card): Record
    requires c.Card?
  {
    if |c.bars| >= 2 then Record(c.title, ProgressValue(c.bars[0]), ProgressValue(c.bars[1]))
    else Record(c.title, "0", "0")
  }

  /** What one iteration of the card loop appends. */
  function Row(c: Card): seq<Record>
  {
    if IsTarget(c) then [RecordOf(c)] else []
  }

  /** `extrair_dados_das_linhas`: the rows of the cards, in card order. */
  function ExtractRecords(cards: seq<Card>): (r: seq<Record>)
    ensures |r| <= |cards|
    ensures forall k :: 0 <= k < |r| ==> r[k].linha in LinhasAlvo
  {
    if cards == [] then []
    else ExtractRecords(cards[..|cards| - 1]) + Row(cards[|cards| - 1])
  }

  /** The extraction loop over the cards. */
  method ExtractRows(cards: seq<Card>) returns (dados: seq<Record>)
    ensures dados == ExtractRecords(cards)
  {
    dados := [];
    var i := 0;
    while i < |cards|
      invariant 0 <= i <= |cards|
      invariant dados == ExtractRecords(cards[..i])
    {
      assert cards[..i + 1][..i] == cards[..i];
      var card := cards[i];
      if card.Card? && card.title in LinhasAlvo {
        var fotos := "0";
        var pendencias := "0";
        if |card.bars| >= 2 {
          fotos := ProgressValue(card.bars[0]);
          pendencias := ProgressValue(card.bars[1]);
        }
        dados := dados + [Record(card.title, fotos, pendencias)];
      }
      i := i + 1;
    }
    assert cards[..i] == cards;
  }

  /** Extraction works card by card: the records of a page are those of its parts, in order. */
  lemma {:induction false} ExtractConcat(a: seq<Card>, b: seq<Card>)
    ensures ExtractRecords(a + b) == ExtractRecords(a) + ExtractRecords(b)
    decreases |b|
  {
    if b == [] {
      assert a + b == a;
    } else {
      var b' := b[..|b| - 1];
      assert (a + b)[..|a + b| - 1] == a + b';
      ExtractConcat(a, b');
    }
  }

  /** Card `k` of the page is a readable target card whose record is `rec`. */
  predicate Produced(cards: seq<Card>, k: int, rec: Record)
  {
    0 <= k < |cards| && IsTarget(cards[k]) && rec == RecordOf(cards[k])
  }

  /**
   * A record is extracted exactly when some readable card with a target
   * title produced it; nothing else is kept.
   */
  lemma {:induction false} ExtractMembers(cards: seq<Card>, rec: Record)
    ensures rec in ExtractRecords(cards) <==> exists k :: Produced(cards, k, rec)
  {
    if cards != [] {
      var pre := cards[..|cards| - 1];
      var last := cards[|cards| - 1];
      ExtractMembers(pre, rec);
      assert ExtractRecords(cards) == ExtractRecords(pre) + Row(last);
      if rec in ExtractRecords(pre) {
        var k :| Produced(pre, k, rec);
        assert cards[k] == pre[k];
        assert Produced(cards, k, rec);
      } else if rec in Row(last) {
        assert Produced(cards, |cards| - 1, rec);
      } else {
        assert forall k :: Produced(cards, k, rec) ==> k < |pre| && Produced(pre, k, rec);
      }
    }
  }

  /** The list is empty (`if dados:` fails) exactly when no card is a readable target card. */
  lemma {:induction false} ExtractEmpty(cards: seq<Card>)
    ensures ExtractRecords(cards) == [] <==> forall k :: 0 <= k < |cards| ==> !IsTarget(cards[k])
  {
    if cards != [] {
      var pre := cards[..|cards| - 1];
      ExtractEmpty(pre);
      assert forall k :: 0 <= k < |pre| ==> pre[k] == cards[k];
    }
  }
}
