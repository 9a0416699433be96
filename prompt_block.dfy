/**
 * The block of retrieved professor data that the chat route appends to the
 * user's question: a fixed header followed by one entry per ranked match,
 * for at most the first five matches.
 */
module PromptBlock {
  import opened Results
  import opened Js

  /** The metadata stored with a professor; a field the store left out is `Undefined`. */
  datatype Metadata = Metadata(
    subject: Value,
    rating: Value,
    difficulty: Value,
    keywords: Value,
    reviewSnippet: Value)

  /**
   * One element of the ranked list. The ranking function itself is not part of
   * this model: the ranked list, with its `rankScore` values, is an input.
   */
  datatype RankedMatch = RankedMatch(id: string, metadata: Option<Metadata>, rankScore: Value)

  const Header: string := "\n\nRetrieved and ranked professor data:"

  /** How many of the ranked matches are formatted. */
  const MaxEntries: nat := 5

  /** The indentation every line of an entry carries. */
  const Indent: string := "            "

  /** One labelled line of an entry. */
  function Line(caption: string, value: string): string {
    Indent + caption + value + "\n"
  }

  /** The seven texts an entry shows, one per line, in this order. */
  datatype Fields = Fields(
    professor: string,
    subject: string,
    rating: string,
    difficulty: string,
    keywords: string,
    reviewSnippet: string,
    rankScore: string)

  /** What follows the last labelled line: an indented line holding two newlines, a newline, and the indentation before the closing quote. */
  const Trailer: string := Indent + "\n\n" + "\n" + Indent

  /** The pieces of an entry, in order: a newline, the seven labelled lines, then the trailer. */
  function LayoutParts(f: Fields): (parts: seq<string>)
    ensures |parts| == 9
  {
    [ "\n",
      Line("Professor: ", f.professor),
      Line("Subject: ", f.subject),
      Line("Rating: ", f.rating),
      Line("Difficulty: ", f.difficulty),
      Line("Keywords: ", f.keywords),
      Line("Review Snippet: ", f.reviewSnippet),
      Line("Rank Score: ", f.rankScore),
      Trailer ]
  }

  /**
   * The text of an entry: its pieces concatenated. It starts with the
   * professor's line and ends with the rank score's line followed by the
   * trailer.
   */
  function Layout(f: Fields): (r: string)
    ensures "\n" + Line("Professor: ", f.professor) <= r
    ensures var tail := Line("Rank Score: ", f.rankScore) + Trailer;
            |tail| <= |r| && r[|r| - |tail|..] == tail
  {
    var parts := LayoutParts(f);
    assert parts == parts[..2] + parts[2..] == parts[..7] + parts[7..];
    ConcatAppend(parts[..2], parts[2..]);
    ConcatAppend(parts[..7], parts[7..]);
    assert Concat(parts[..2]) == "\n" + Line("Professor: ", f.professor) by {
      assert parts[..2][..1] == ["\n"] && parts[..2][1] == Line("Professor: ", f.professor);
      assert ["\n"][..0] == [];
      assert Concat(["\n"]) == "" + "\n" == "\n";
    }
    assert Concat(parts[7..]) == Line("Rank Score: ", f.rankScore) + Trailer by {
      var last := Line("Rank Score: ", f.rankScore);
      assert parts[7..][..1] == [last] && parts[7..][1] == Trailer;
      assert [last][..0] == [];
      assert Concat([last]) == "" + last == last;
    }
    Concat(parts)
  }

  /** Concatenating one more piece of a list appends that piece. */
  lemma ConcatPrefixStep(parts: seq<string>, k: nat)
    requires k < |parts|
    ensures Concat(parts[..k + 1]) == Concat(parts[..k]) + parts[k]
  {
    assert parts[..k + 1][..k] == parts[..k];
  }

  /**
   * An entry is the newline, then the lines for the professor, subject,
   * rating, difficulty, keywords, review snippet and rank score in that
   * order, then the trailer.
   */
  lemma LayoutInOrder(f: Fields)
    ensures Layout(f) == "\n" + Line("Professor: ", f.professor) + Line("Subject: ", f.subject)
                       + Line("Rating: ", f.rating) + Line("Difficulty: ", f.difficulty)
                       + Line("Keywords: ", f.keywords) + Line("Review Snippet: ", f.reviewSnippet)
                       + Line("Rank Score: ", f.rankScore) + Trailer
  {
    var lines := LayoutParts(f);
    ConcatNine(lines[0], lines[1], lines[2], lines[3], lines[4], lines[5], lines[6], lines[7], lines[8]);
    assert lines == [lines[0], lines[1], lines[2], lines[3], lines[4], lines[5], lines[6], lines[7], lines[8]];
  }

  /** Nine pieces concatenate to their left-to-right sum. */
  lemma ConcatNine(a: string, b: string, c: string, d: string, e: string, f: string, g: string, h: string, i: string)
    ensures Concat([a, b, c, d, e, f, g, h, i]) == a + b + c + d + e + f + g + h + i
  {
    var p := [a, b, c, d, e, f, g, h, i];
    assert p[..0] == [];
    ConcatPrefixStep(p, 0);
    ConcatPrefixStep(p, 1);
    ConcatPrefixStep(p, 2);
    ConcatPrefixStep(p, 3);
    ConcatPrefixStep(p, 4);
    ConcatPrefixStep(p, 5);
    ConcatPrefixStep(p, 6);
    ConcatPrefixStep(p, 7);
    ConcatPrefixStep(p, 8);
    assert p[..9] == p;
  }

  /** How an entry shows a field read with `|| "N/A"`: its text when truthy, "N/A" otherwise. */
  predicate Shows(v: Value, text: string) {
    if Truthy(v) then text == ToText(v) else text == "N/A"
  }

  /**
   * What an entry shows for a match: the id, the subject, rating and
   * difficulty (or "N/A" when falsy), the keywords joined with ", " (empty
   * when falsy), the review snippet (or "N/A") and the rank score. A match
   * without metadata throws on reading `subject`; keywords that are truthy but
   * not an array throw on `join`.
   */
  function FieldsOf(m: RankedMatch): Result<Fields, Error>
  {
    match m.metadata
    case None => Err(ReadOfUndefined("subject"))
    case Some(md) =>
      match JoinOrEmpty(md.keywords, ", ")
      case Err(e) => Err(e)
      case Ok(keywords) =>
        Ok(Fields(m.id,
                  TextOr(md.subject, "N/A"),
                  TextOr(md.rating, "N/A"),
                  TextOr(md.difficulty, "N/A"),
                  keywords,
                  TextOr(md.reviewSnippet, "N/A"),
                  ToText(m.rankScore)))
  }

  /**
   * The text one match contributes to the block: the layout of its fields,
   * opening with the professor's id and closing with the rank score.
   */
  function EntryText(m: RankedMatch): (r: Result<string, Error>)
    ensures r.Ok? <==> FieldsOf(m).Ok?
    ensures r.Ok? ==> r.value == Layout(FieldsOf(m).value)
    ensures r.Ok? ==> "\n" + Line("Professor: ", m.id) <= r.value
    ensures r.Ok? ==> var tail := Line("Rank Score: ", ToText(m.rankScore)) + Trailer;
              |tail| <= |r.value| && r.value[|r.value| - |tail|..] == tail
  {
    match FieldsOf(m)
    case Err(e) => Err(e)
    case Ok(f) => Ok(Layout(f))
  }

  /** The entry texts of a list of matches, one per match, in order. */
  function EntryTexts(ms: seq<RankedMatch>): (r: seq<Result<string, Error>>)
    ensures |r| == |ms|
  {
    seq(|ms|, i requires 0 <= i < |ms| => EntryText(ms[i]))
  }

  /** The texts joined in order, or the error of the first one that is an error. */
  function Collect(rs: seq<Result<string, Error>>): Result<string, Error>
    decreases |rs|
  {
    if |rs| == 0 then Ok("")
    else
      match Collect(rs[..|rs| - 1])
      case Err(e) => Err(e)
      case Ok(earlier) =>
        match rs[|rs| - 1]
        case Err(e) => Err(e)
        case Ok(last) => Ok(earlier + last)
  }

  /** How many matches the block shows: `slice(0, 5)`. */
  function Shown(ranked: seq<RankedMatch>): (n: nat)
    ensures n <= MaxEntries && n <= |ranked|
    ensures n == MaxEntries || n == |ranked|
  {
    if |ranked| < MaxEntries then |ranked| else MaxEntries
  }

  /** The whole block: the header, then the entries of the first `Shown` matches. */
  function Block(ranked: seq<RankedMatch>): (r: Result<string, Error>)
    ensures r.Ok? ==> Header <= r.value
    ensures ranked == [] ==> r == Ok(Header)
  {
    assert ranked == [] ==> EntryTexts(ranked[..Shown(ranked)]) == [] && Header + "" == Header;
    match Collect(EntryTexts(ranked[..Shown(ranked)]))
    case Err(e) => Err(e)
    case Ok(entries) => Ok(Header + entries)
  }

  /**
   * Builds the block as the route does: starts from the header and appends
   * one entry per shown match, stopping at the first match that throws.
   */
  method AssembleBlock(ranked: seq<RankedMatch>) returns (r: Result<string, Error>)
    ensures r == Block(ranked)
  {
    var shown := ranked[..Shown(ranked)];
    ghost var texts := EntryTexts(shown);
    var resultString := Header;
    var i := 0;
    while i < |shown|
      invariant 0 <= i <= |shown|
      invariant Collect(texts[..i]).Ok?
      invariant resultString == Header + Collect(texts[..i]).value
    {
      var entry := EntryText(shown[i]);
      assert entry == texts[i];
      CollectStep(texts, i);
      if entry.Err? {
        return Err(entry.error);
      }
      ghost var done := Collect(texts[..i]).value;
      AppendAssoc(Header, done, entry.value);
      resultString := resultString + entry.value;
      i := i + 1;
    }
    assert texts[..i] == texts;
    r := Ok(resultString);
  }

  // ---------------------------------------------------------------------------
  // Properties of an entry

  /**
   * An entry fails exactly when the match has no metadata (reading `subject`
   * throws) or its keywords are truthy but not an array (`join` is not a
   * function); every other match yields text.
   */
  lemma EntryFails(m: RankedMatch)
    ensures EntryText(m).Err? <==>
              m.metadata.None? || (Truthy(m.metadata.value.keywords) && !m.metadata.value.keywords.Array?)
    ensures m.metadata.None? ==> EntryText(m) == Err(ReadOfUndefined("subject"))
    ensures m.metadata.Some? && EntryText(m).Err? ==> EntryText(m) == Err(NotAFunction("join"))
  {
  }

  /**
   * A match that yields an entry shows its id, its rank score, its keywords
   * joined with ", " (nothing when they are falsy), and each other field's text
   * when truthy or "N/A" when falsy.
   */
  lemma EntryFields(m: RankedMatch)
    requires FieldsOf(m).Ok?
    ensures var f, md := FieldsOf(m).value, m.metadata.value;
            f.professor == m.id && f.rankScore == ToText(m.rankScore) &&
            f.keywords == (if md.keywords.Array? then Join(md.keywords.items, ", ") else "") &&
            Shows(md.subject, f.subject) && Shows(md.rating, f.rating) &&
            Shows(md.difficulty, f.difficulty) && Shows(md.reviewSnippet, f.reviewSnippet)
  {
  }

  /**
   * The text of a readable match: the newline, then its id, subject, rating,
   * difficulty, keywords, review snippet and rank score lines in that order,
   * then the trailer; each field read with `|| "N/A"` shows its text when
   * truthy and "N/A" when falsy.
   */
  lemma EntryLines(m: RankedMatch)
    requires FieldsOf(m).Ok?
    ensures var f, md := FieldsOf(m).value, m.metadata.value;
            EntryText(m) == Ok("\n" + Line("Professor: ", m.id) + Line("Subject: ", f.subject)
                               + Line("Rating: ", f.rating) + Line("Difficulty: ", f.difficulty)
                               + Line("Keywords: ", f.keywords) + Line("Review Snippet: ", f.reviewSnippet)
                               + Line("Rank Score: ", ToText(m.rankScore)) + Trailer) &&
            Shows(md.subject, f.subject) && Shows(md.rating, f.rating) &&
            Shows(md.difficulty, f.difficulty) && Shows(md.reviewSnippet, f.reviewSnippet) &&
            f.keywords == (if md.keywords.Array? then Join(md.keywords.items, ", ") else "")
  {
    EntryFields(m);
    LayoutInOrder(FieldsOf(m).value);
  }

  /** A match whose metadata holds none of the fields shows "N/A" four times and no keywords. */
  lemma MissingFieldsEntry(id: string, score: Value)
    ensures FieldsOf(RankedMatch(id, Some(Metadata(Undefined, Undefined, Undefined, Undefined, Undefined)), score))
         == Ok(Fields(id, "N/A", "N/A", "N/A", "", "N/A", ToText(score)))
  {
  }

  /** The metadata with every falsy value replaced by `undefined`. */
  function WithoutFalsy(md: Metadata): Metadata {
    Metadata(
      if Truthy(md.subject) then md.subject else Undefined,
      if Truthy(md.rating) then md.rating else Undefined,
      if Truthy(md.difficulty) then md.difficulty else Undefined,
      if Truthy(md.keywords) then md.keywords else Undefined,
      if Truthy(md.reviewSnippet) then md.reviewSnippet else Undefined)
  }

  /** A falsy value and `undefined` print alike, both behind `||` and in `(v || []).join`. */
  lemma FalsyIsUndefined(v: Value)
    ensures var u := if Truthy(v) then v else Undefined;
            TextOr(v, "N/A") == TextOr(u, "N/A") && JoinOrEmpty(v, ", ") == JoinOrEmpty(u, ", ")
  {
  }

  /**
   * A falsy metadata value (0, "", false, null, NaN) prints exactly as a
   * missing one: a rating of 0 shows "N/A", an empty keyword string shows "".
   */
  lemma FalsyPrintsAsMissing(m: RankedMatch)
    requires m.metadata.Some?
    ensures EntryText(m) == EntryText(m.(metadata := Some(WithoutFalsy(m.metadata.value))))
  {
    var md := m.metadata.value;
    FalsyIsUndefined(md.subject);
    FalsyIsUndefined(md.rating);
    FalsyIsUndefined(md.difficulty);
    FalsyIsUndefined(md.keywords);
    FalsyIsUndefined(md.reviewSnippet);
    assert FieldsOf(m) == FieldsOf(m.(metadata := Some(WithoutFalsy(md))));
  }

  // ---------------------------------------------------------------------------
  // Properties of the block

  /** Collecting two lists: the first list's text, then the second's, unless one of them holds an error. */
  lemma {:induction false} CollectAppend(xs: seq<Result<string, Error>>, ys: seq<Result<string, Error>>)
    ensures Collect(xs).Err? ==> Collect(xs + ys) == Collect(xs)
    ensures Collect(xs).Ok? && Collect(ys).Ok? ==> Collect(xs + ys) == Ok(Collect(xs).value + Collect(ys).value)
    ensures Collect(xs).Ok? && Collect(ys).Err? ==> Collect(xs + ys) == Collect(ys)
    decreases |ys|
  {
    if |ys| == 0 {
      assert xs + ys == xs;
      assert Collect(xs).Ok? ==> Collect(xs).value + "" == Collect(xs).value;
    } else {
      var ys' := ys[..|ys| - 1];
      assert (xs + ys)[..|xs + ys| - 1] == xs + ys';
      assert (xs + ys)[|xs + ys| - 1] == ys[|ys| - 1];
      CollectAppend(xs, ys');
      if Collect(xs).Ok? && Collect(ys).Ok? {
        var a, b, c := Collect(xs).value, Collect(ys').value, ys[|ys| - 1].value;
        assert Collect(xs + ys) == Ok((a + b) + c);
        assert (a + b) + c == a + (b + c);
      }
    }
  }

  /** Appending strings is associative. */
  lemma AppendAssoc(a: string, b: string, c: string)
    ensures (a + b) + c == a + (b + c)
  {
  }

  /** One step of collecting: the next text is appended, or its error ends the whole collection. */
  lemma CollectStep(rs: seq<Result<string, Error>>, i: nat)
    requires i < |rs| && Collect(rs[..i]).Ok?
    ensures rs[i].Ok? ==> Collect(rs[..i + 1]) == Ok(Collect(rs[..i]).value + rs[i].value)
    ensures rs[i].Err? ==> Collect(rs) == Err(rs[i].error)
  {
    assert rs[..i + 1][..i] == rs[..i];
    if rs[i].Err? {
      CollectAppend(rs[..i + 1], rs[i + 1..]);
      assert rs[..i + 1] + rs[i + 1..] == rs;
    }
  }

  /** The index of the first error in the list, or `|rs|` when there is none. */
  function FirstError(rs: seq<Result<string, Error>>): (i: nat)
    ensures i <= |rs|
    ensures forall j | 0 <= j < i :: rs[j].Ok?
    ensures i < |rs| ==> rs[i].Err?
    decreases |rs|
  {
    if |rs| == 0 then 0
    else
      var i := FirstError(rs[..|rs| - 1]);
      if i < |rs| - 1 || rs[|rs| - 1].Err? then i else |rs|
  }

  /** Collecting fails exactly when some text is an error, and then with the first such error. */
  lemma {:induction false} CollectFails(rs: seq<Result<string, Error>>)
    ensures Collect(rs).Err? <==> FirstError(rs) < |rs|
    ensures Collect(rs).Err? ==> Collect(rs).error == rs[FirstError(rs)].error
    decreases |rs|
  {
    if |rs| > 0 {
      var init := rs[..|rs| - 1];
      CollectFails(init);
      if FirstError(init) < |init| {
        assert init[FirstError(init)] == rs[FirstError(init)];
      }
    }
  }

  /** The values of a list of texts none of which is an error. */
  function Values(rs: seq<Result<string, Error>>): (r: seq<string>)
    requires forall i | 0 <= i < |rs| :: rs[i].Ok?
    ensures |r| == |rs|
  {
    seq(|rs|, i requires 0 <= i < |rs| => rs[i].value)
  }

  /** When no text is an error, collecting is plain concatenation in order. */
  lemma {:induction false} CollectAllOk(rs: seq<Result<string, Error>>)
    requires forall i | 0 <= i < |rs| :: rs[i].Ok?
    ensures Collect(rs) == Ok(Concat(Values(rs)))
    decreases |rs|
  {
    if |rs| > 0 {
      var init := rs[..|rs| - 1];
      CollectAllOk(init);
      assert Values(rs)[..|rs| - 1] == Values(init);
    }
  }

  /**
   * When none of the shown matches throws, the block is the header followed
   * by the entries of the first five matches (or of all, if fewer), in ranked order.
   */
  lemma BlockListsEntries(ranked: seq<RankedMatch>)
    requires forall i | 0 <= i < Shown(ranked) :: EntryText(ranked[i]).Ok?
    ensures Block(ranked)
         == Ok(Header + Concat(seq(Shown(ranked), i requires 0 <= i < Shown(ranked) => EntryText(ranked[i]).value)))
  {
    var texts := EntryTexts(ranked[..Shown(ranked)]);
    var entries := seq(Shown(ranked), i requires 0 <= i < Shown(ranked) => EntryText(ranked[i]).value);
    forall i | 0 <= i < Shown(ranked)
      ensures texts[i].Ok? && texts[i].value == entries[i]
    {
      assert texts[i] == EntryText(ranked[i]);
    }
    CollectAllOk(texts);
    assert Values(texts) == entries;
  }

  /** The block depends only on the first five matches. */
  lemma BlockOnlyFirstFive(ranked: seq<RankedMatch>, rest: seq<RankedMatch>)
    requires |ranked| >= MaxEntries
    ensures Block(ranked + rest) == Block(ranked)
  {
    assert (ranked + rest)[..MaxEntries] == ranked[..MaxEntries];
  }

  /**
   * While fewer than five matches are shown, one more match appends its entry
   * after all earlier ones: the block lists the matches in ranked order.
   */
  lemma BlockAppendsInRankOrder(ranked: seq<RankedMatch>, m: RankedMatch)
    requires |ranked| < MaxEntries
    ensures Block(ranked).Err? ==> Block(ranked + [m]) == Block(ranked)
    ensures Block(ranked).Ok? && EntryText(m).Ok? ==>
              Block(ranked + [m]) == Ok(Block(ranked).value + EntryText(m).value)
    ensures Block(ranked).Ok? && EntryText(m).Err? ==> Block(ranked + [m]) == Err(EntryText(m).error)
  {
    var grown := ranked + [m];
    assert grown[..Shown(grown)] == grown;
    assert ranked[..Shown(ranked)] == ranked;
    var texts := EntryTexts(grown);
    assert texts[..|texts| - 1] == EntryTexts(ranked);
    assert texts[|texts| - 1] == EntryText(m);
    if Block(ranked).Ok? && EntryText(m).Ok? {
      var a, t := Collect(EntryTexts(ranked)).value, EntryText(m).value;
      assert Collect(texts) == Ok(a + t);
      assert Header + (a + t) == (Header + a) + t;
    }
  }

  /**
   * Assembly throws exactly when one of the shown matches throws, and then
   * with the error of the first such match.
   */
  lemma BlockFails(ranked: seq<RankedMatch>)
    ensures Block(ranked).Err? <==> exists i | 0 <= i < Shown(ranked) :: EntryText(ranked[i]).Err?
    ensures Block(ranked).Err? ==>
              exists i | 0 <= i < Shown(ranked) ::
                EntryText(ranked[i]) == Err(Block(ranked).error) && forall j | 0 <= j < i :: EntryText(ranked[j]).Ok?
  {
    var texts := EntryTexts(ranked[..Shown(ranked)]);
    CollectFails(texts);
    var i := FirstError(texts);
    if i < |texts| {
      assert texts[i] == EntryText(ranked[i]);
      assert forall j | 0 <= j < i :: texts[j] == EntryText(ranked[j]);
    } else {
      assert forall j | 0 <= j < |texts| :: texts[j] == EntryText(ranked[j]);
    }
  }
}
