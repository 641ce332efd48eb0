/** Drive search queries: the texts the service prints, and a reader and evaluator for the
    small query language they are written in. */
module Query {
  import opened Core
  import opened Mapping

  // ---------- Printing ----------

  /** Replaces every occurrence of one character by a text. */
  function Replace(s: string, c: char, with: string): string {
    if s == [] then [] else (if s[0] == c then with else [s[0]]) + Replace(s[1..], c, with)
  }

  function Escape(value: string): string {
    Replace(Replace(value, '\\', "\\\\"), '\'', "\\'")
  }

  const IN_PARENTS := " in parents"
  const AND := " and "
  const NOT_TRASHED := "trashed = false"
  const MIME_NOT := "mimeType != "
  const NO_PROPERTY := "not appProperties has { key="
  const AND_VALUE := " and value="
  const CLOSE := " }"

  function Quoted(value: string): string {
    "'" + Escape(value) + "'"
  }

  function FolderQuery(folder: string): string {
    Quoted(folder) + IN_PARENTS + AND + NOT_TRASHED + AND + MIME_NOT + ("'" + FOLDER_MIME + "'")
  }

  function LatestQuery(folder: string): string {
    FolderQuery(folder) + AND
    + NO_PROPERTY + ("'" + PROP_KIND + "'") + AND_VALUE + ("'" + PreRestore.AsStr() + "'") + CLOSE
  }

  // ---------- Reading ----------

  // The words of the query language, as its reader expects them.
  const WORD_IN_PARENTS := " in parents"
  const WORD_AND := " and "
  const WORD_NOT_TRASHED := "trashed = false"
  const WORD_MIME_NOT := "mimeType != "
  const WORD_NO_PROPERTY := "not appProperties has { key="
  const WORD_AND_VALUE := " and value="
  const WORD_CLOSE := " }"

  datatype Term =
    | InParents(folder: string)
    | NotTrashed
    | MimeNot(mime: string)
    | NoProperty(key: string, value: string)

  function Strip(text: string, prefix: string): (rest: Option<string>)
    ensures rest.Some? ==> |rest.value| + |prefix| == |text|
  {
    if |prefix| <= |text| && text[..|prefix|] == prefix then Some(text[|prefix|..]) else None
  }

  /** Reads the inside of a single-quoted literal: a backslash takes the next character as it is,
      a bare quote ends the literal. */
  function ReadBody(text: string): (r: Option<(string, string)>)
    ensures r.Some? ==> |r.value.1| < |text|
  {
    if text == "" then None
    else if text[0] == '\'' then Some(("", text[1..]))
    else if text[0] == '\\' then
      if |text| < 2 then None
      else
        match ReadBody(text[2..])
        case None => None
        case Some((value, rest)) => Some(([text[1]] + value, rest))
    else
      match ReadBody(text[1..])
      case None => None
      case Some((value, rest)) => Some(([text[0]] + value, rest))
  }

  function ReadLiteral(text: string): (r: Option<(string, string)>)
    ensures r.Some? ==> |r.value.1| < |text|
  {
    if text != "" && text[0] == '\'' then ReadBody(text[1..]) else None
  }

  function ReadInParents(text: string): (r: Option<(Term, string)>)
    ensures r.Some? ==> |r.value.1| < |text|
  {
    match ReadLiteral(text)
    case None => None
    case Some((folder, rest)) =>
      match Strip(rest, WORD_IN_PARENTS)
      case None => None
      case Some(rest') => Some((InParents(folder), rest'))
  }

  function ReadMimeNot(text: string): (r: Option<(Term, string)>)
    ensures r.Some? ==> |r.value.1| < |text|
  {
    match Strip(text, WORD_MIME_NOT)
    case None => None
    case Some(rest) =>
      match ReadLiteral(rest)
      case None => None
      case Some((mime, rest')) => Some((MimeNot(mime), rest'))
  }

  function ReadNoProperty(text: string): (r: Option<(Term, string)>)
    ensures r.Some? ==> |r.value.1| < |text|
  {
    match Strip(text, WORD_NO_PROPERTY)
    case None => None
    case Some(rest) =>
      match ReadLiteral(rest)
      case None => None
      case Some((key, rest1)) =>
        match Strip(rest1, WORD_AND_VALUE)
        case None => None
        case Some(rest2) =>
          match ReadLiteral(rest2)
          case None => None
          case Some((value, rest3)) =>
            match Strip(rest3, WORD_CLOSE)
            case None => None
            case Some(rest4) => Some((NoProperty(key, value), rest4))
  }

  function ReadNotTrashed(text: string): (r: Option<(Term, string)>)
    ensures r.Some? ==> |r.value.1| < |text|
  {
    match Strip(text, WORD_NOT_TRASHED)
    case None => None
    case Some(rest) => Some((NotTrashed, rest))
  }

  /** The first character tells which term follows. */
  function ReadTerm(text: string): (r: Option<(Term, string)>)
    ensures r.Some? ==> |r.value.1| < |text|
  {
    if text == "" then None
    else if text[0] == '\'' then ReadInParents(text)
    else if text[0] == 't' then ReadNotTrashed(text)
    else if text[0] == 'm' then ReadMimeNot(text)
    else if text[0] == 'n' then ReadNoProperty(text)
    else None
  }

  /** A conjunction of terms. */
  function ReadQuery(text: string): Option<seq<Term>>
    decreases |text|
  {
    match ReadTerm(text)
    case None => None
    case Some((term, rest)) =>
      if rest == "" then Some([term])
      else
        match Strip(rest, WORD_AND)
        case None => None
        case Some(rest') =>
          match ReadQuery(rest')
          case None => None
          case Some(terms) => Some([term] + terms)
  }

  // ---------- Evaluation ----------

  predicate Holds(term: Term, file: DriveFile) {
    match term
    case InParents(folder) => file.parents.Some? && folder in file.parents.value
    case NotTrashed => file.trashed != Some(true)
    case MimeNot(mime) => file.mimeType != Some(mime)
    case NoProperty(key, value) => Property(file, key) != Some(value)
  }

  predicate Selects(terms: seq<Term>, file: DriveFile) {
    forall i :: 0 <= i < |terms| ==> Holds(terms[i], file)
  }

  /** The files a query text selects; an unreadable text selects none. */
  predicate TextSelects(text: string, file: DriveFile) {
    ReadQuery(text).Some? && Selects(ReadQuery(text).value, file)
  }

  // ---------- Proofs ----------

  /** One-pass escaping. */
  function EscapeOnce(value: string): string {
    if value == [] then []
    else (if value[0] in {'\\', '\''} then ['\\', value[0]] else [value[0]]) + EscapeOnce(value[1..])
  }

  lemma {:induction false} ReplaceConcat(a: string, b: string, c: char, with: string)
    ensures Replace(a + b, c, with) == Replace(a, c, with) + Replace(b, c, with)
  {
    if a == [] {
      assert a + b == b;
    } else {
      assert (a + b)[1..] == a[1..] + b;
      ReplaceConcat(a[1..], b, c, with);
    }
  }

  /** The two successive replacements equal one per-character escape. */
  lemma {:induction false} EscapeIsOnePass(value: string)
    ensures Escape(value) == EscapeOnce(value)
  {
    if value != [] {
      var head, tail := value[0], value[1..];
      EscapeIsOnePass(tail);
      var first := if head == '\\' then "\\\\" else [head];
      ReplaceConcat(first, Replace(tail, '\\', "\\\\"), '\'', "\\'");
      if head == '\\' {
        assert first[1..] == "\\" && first[1..][1..] == "";
        assert Replace(first, '\'', "\\'") == "\\\\";
      } else {
        assert first[1..] == "";
        assert Replace(first, '\'', "\\'") == if head == '\'' then "\\'" else first;
      }
    }
  }

  lemma ReadBodyStep(c: char, tail: string)
    ensures ReadBody(tail).Some? && c !in {'\\', '\''} ==>
              ReadBody([c] + tail) == Some(([c] + ReadBody(tail).value.0, ReadBody(tail).value.1))
    ensures ReadBody(tail).Some? ==>
              ReadBody(['\\', c] + tail) == Some(([c] + ReadBody(tail).value.0, ReadBody(tail).value.1))
  {
    assert ([c] + tail)[1..] == tail;
    assert (['\\', c] + tail)[2..] == tail;
  }

  lemma RegroupEscaped(head: string, tail: string, rest: string)
    ensures head + tail + "'" + rest == head + (tail + "'" + rest)
  {
  }

  lemma {:induction false} ReadEscapedOnce(value: string, rest: string)
    ensures ReadBody(EscapeOnce(value) + "'" + rest) == Some((value, rest))
  {
    if value == [] {
      assert EscapeOnce(value) + "'" + rest == "'" + rest;
      assert ("'" + rest)[1..] == rest;
    } else {
      var c := value[0];
      ReadEscapedOnce(value[1..], rest);
      ReadBodyStep(c, EscapeOnce(value[1..]) + "'" + rest);
      RegroupEscaped(if c in {'\\', '\''} then ['\\', c] else [c], EscapeOnce(value[1..]), rest);
      assert value == [c] + value[1..];
    }
  }

  /** A reader started at the opening quote consumes exactly the escaped literal, recovers the
      value and leaves what follows it, for every value and every continuation. */
  lemma LiteralRoundTrip(value: string, rest: string)
    ensures ReadLiteral("'" + Escape(value) + "'" + rest) == Some((value, rest))
  {
    EscapeIsOnePass(value);
    ReadEscapedOnce(value, rest);
    var text := "'" + Escape(value) + "'" + rest;
    assert text[1..] == EscapeOnce(value) + "'" + rest;
  }

  lemma {:induction false} PlainEscape(value: string)
    requires '\\' !in value && '\'' !in value
    ensures EscapeOnce(value) == value
  {
    if value != [] {
      PlainEscape(value[1..]);
    }
  }

  lemma PlainLiteral(value: string, rest: string)
    requires '\\' !in value && '\'' !in value
    ensures ReadLiteral("'" + value + "'" + rest) == Some((value, rest))
  {
    PlainEscape(value);
    EscapeIsOnePass(value);
    LiteralRoundTrip(value, rest);
  }

  lemma StripPrefix(prefix: string, rest: string)
    ensures Strip(prefix + rest, prefix) == Some(rest)
  {
    assert (prefix + rest)[..|prefix|] == prefix;
    assert (prefix + rest)[|prefix|..] == rest;
  }

  /** One more term in front of a readable conjunction. */
  lemma ReadAnd(text: string, term: Term, rest: string, terms: seq<Term>)
    requires ReadTerm(text) == Some((term, AND + rest))
    requires ReadQuery(rest) == Some(terms)
    ensures ReadQuery(text) == Some([term] + terms)
  {
    StripPrefix(AND, rest);
  }

  lemma ReadMimeTerm(mime: string, rest: string)
    requires '\\' !in mime && '\'' !in mime
    ensures ReadTerm(MIME_NOT + "'" + mime + "'" + rest) == Some((MimeNot(mime), rest))
  {
    var literal := "'" + mime + "'" + rest;
    var text := MIME_NOT + literal;
    assert text == MIME_NOT + "'" + mime + "'" + rest;
    StripPrefix(MIME_NOT, literal);
    PlainLiteral(mime, rest);
    assert text[0] == 'm';
  }

  lemma RegroupPropertyTerm(n: string, k: string, v: string, p: string, c: string)
    ensures n + k + v + p + c == n + (k + (v + (p + c)))
  {
  }

  lemma ReadPropertyTerm()
    ensures ReadQuery(NO_PROPERTY + ("'" + PROP_KIND + "'") + AND_VALUE + ("'" + PreRestore.AsStr() + "'") + CLOSE)
         == Some([NoProperty(PROP_KIND, "pre_restore")])
  {
    var kind, copy := "'" + PROP_KIND + "'", "'" + PreRestore.AsStr() + "'";
    var text2 := AND_VALUE + (copy + CLOSE);
    var text := NO_PROPERTY + (kind + text2);
    RegroupPropertyTerm(NO_PROPERTY, kind, AND_VALUE, copy, CLOSE);
    StripPrefix(NO_PROPERTY, kind + text2);
    PlainLiteral(PROP_KIND, text2);
    StripPrefix(AND_VALUE, copy + CLOSE);
    PlainLiteral(PreRestore.AsStr(), CLOSE);
    StripPrefix(CLOSE, "");
    assert CLOSE + "" == CLOSE;
    assert text[0] == 'n';
  }

  lemma ReadParentsTerm(folder: string, rest: string)
    ensures ReadTerm(Quoted(folder) + IN_PARENTS + rest) == Some((InParents(folder), rest))
  {
    var text := Quoted(folder) + (IN_PARENTS + rest);
    assert text == Quoted(folder) + IN_PARENTS + rest;
    LiteralRoundTrip(folder, IN_PARENTS + rest);
    StripPrefix(IN_PARENTS, rest);
  }

  lemma ReadTrashedTerm(rest: string)
    ensures ReadTerm(NOT_TRASHED + rest) == Some((NotTrashed, rest))
  {
    StripPrefix(NOT_TRASHED, rest);
    assert (NOT_TRASHED + rest)[0] == 't';
  }

  /** The tail of the folder query, from its second term on. */
  /** The text behind the first term. */
  function FolderTail(more: string): string {
    NOT_TRASHED + (AND + (MIME_NOT + "'" + FOLDER_MIME + "'" + more))
  }

  lemma FolderTailReads(more: string, terms: seq<Term>)
    requires more == "" || (exists rest :: more == AND + rest && ReadQuery(rest) == Some(terms))
    requires more == "" ==> terms == []
    ensures ReadQuery(FolderTail(more)) == Some([NotTrashed] + ([MimeNot(FOLDER_MIME)] + terms))
  {
    var text := MIME_NOT + "'" + FOLDER_MIME + "'" + more;
    ReadMimeTerm(FOLDER_MIME, more);
    if more != "" {
      var rest :| more == AND + rest && ReadQuery(rest) == Some(terms);
      ReadAnd(text, MimeNot(FOLDER_MIME), rest, terms);
    } else {
      assert [MimeNot(FOLDER_MIME)] + terms == [MimeNot(FOLDER_MIME)];
    }
    ReadTrashedTerm(AND + text);
    ReadAnd(NOT_TRASHED + (AND + text), NotTrashed, text, [MimeNot(FOLDER_MIME)] + terms);
  }

  lemma RegroupFolderQuery(q: string, a: string, b: string, c: string, d: string, e: string, more: string)
    ensures q + a + b + c + b + d + e + more == q + a + (b + (c + (b + (d + e + more))))
  {
  }

  lemma FolderQueryShape(folder: string, more: string)
    ensures FolderQuery(folder) + more == Quoted(folder) + IN_PARENTS + (AND + FolderTail(more))
  {
    var mime := "'" + FOLDER_MIME + "'";
    assert MIME_NOT + mime + more == MIME_NOT + "'" + FOLDER_MIME + "'" + more;
    RegroupFolderQuery(Quoted(folder), IN_PARENTS, AND, NOT_TRASHED, MIME_NOT, mime, more);
  }

  lemma RegroupTerms(a: Term, b: Term, c: Term, terms: seq<Term>)
    ensures [a] + ([b] + ([c] + terms)) == [a, b, c] + terms
  {
  }

  /** The folder query, for every folder id, reads as the three intended terms followed by
      whatever query was appended to it. */
  lemma FolderQueryReads(folder: string, more: string, terms: seq<Term>)
    requires more == "" || (exists rest :: more == AND + rest && ReadQuery(rest) == Some(terms))
    requires more == "" ==> terms == []
    ensures ReadQuery(FolderQuery(folder) + more) == Some([InParents(folder), NotTrashed, MimeNot(FOLDER_MIME)] + terms)
  {
    var tail := FolderTail(more);
    FolderTailReads(more, terms);
    ReadParentsTerm(folder, AND + tail);
    ReadAnd(Quoted(folder) + IN_PARENTS + (AND + tail), InParents(folder), tail,
            [NotTrashed] + ([MimeNot(FOLDER_MIME)] + terms));
    FolderQueryShape(folder, more);
    RegroupTerms(InParents(folder), NotTrashed, MimeNot(FOLDER_MIME), terms);
  }

  lemma RegroupLatestQuery(q: string, a: string, n: string, k: string, v: string, p: string, c: string)
    ensures q + a + n + k + v + p + c == q + (a + (n + k + v + p + c))
  {
  }

  lemma LatestQueryShape(folder: string) returns (rest: string)
    ensures LatestQuery(folder) == FolderQuery(folder) + (AND + rest)
    ensures ReadQuery(rest) == Some([NoProperty(PROP_KIND, "pre_restore")])
  {
    var kind, copy := "'" + PROP_KIND + "'", "'" + PreRestore.AsStr() + "'";
    rest := NO_PROPERTY + kind + AND_VALUE + copy + CLOSE;
    ReadPropertyTerm();
    RegroupLatestQuery(FolderQuery(folder), AND, NO_PROPERTY, kind, AND_VALUE, copy, CLOSE);
  }

  lemma LatestQueryReads(folder: string)
    ensures ReadQuery(LatestQuery(folder))
         == Some([InParents(folder), NotTrashed, MimeNot(FOLDER_MIME)] + [NoProperty(PROP_KIND, "pre_restore")])
  {
    var rest := LatestQueryShape(folder);
    FolderQueryReads(folder, AND + rest, [NoProperty(PROP_KIND, "pre_restore")]);
  }

  /** The printed folder query selects exactly the files the listing means. */
  lemma FolderQuerySelects(folder: string, file: DriveFile)
    ensures TextSelects(FolderQuery(folder), file) <==> InListing(file, folder)
  {
    FolderQueryReads(folder, "", []);
    assert FolderQuery(folder) + "" == FolderQuery(folder);
    var terms := ReadQuery(FolderQuery(folder)).value;
    assert terms == [InParents(folder), NotTrashed, MimeNot(FOLDER_MIME)];
    assert Selects(terms, file) <==> Holds(terms[0], file) && Holds(terms[1], file) && Holds(terms[2], file);
  }

  /** The printed latest query selects exactly the files "latest" means. */
  lemma LatestQuerySelects(folder: string, file: DriveFile)
    ensures TextSelects(LatestQuery(folder), file) <==> InLatest(file, folder)
  {
    LatestQueryReads(folder);
    var terms := ReadQuery(LatestQuery(folder)).value;
    assert Selects(terms, file)
      <==> Holds(terms[0], file) && Holds(terms[1], file) && Holds(terms[2], file) && Holds(terms[3], file);
  }

  /** What the two printed queries select, for every folder id. A file selected by either lies in
      the folder by the local check, and a backup selected by the latest query is never a
      pre-restore copy: the query excludes exactly the files that map to that kind. */
  lemma QueriesAgreeWithMapping(folder: string, file: DriveFile)
    ensures TextSelects(FolderQuery(folder), file) <==> IsInFolder(file, folder) && file.mimeType != Some(FOLDER_MIME)
    ensures TextSelects(LatestQuery(folder), file)
       <==> TextSelects(FolderQuery(folder), file) && Property(file, PROP_KIND) != Some("pre_restore")
    ensures ToBackupInfo(file).Success? && TextSelects(FolderQuery(folder), file) ==>
              (TextSelects(LatestQuery(folder), file) <==> ToBackupInfo(file).value.kind == Regular)
  {
    FolderQuerySelects(folder, file);
    LatestQuerySelects(folder, file);
  }
}
