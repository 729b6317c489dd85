/** Loading the SEO audit table: a Google Sheets link is rewritten to its
    CSV export link, the CSV is read, and the column labels are trimmed and
    lower-cased. Reading is the oracle `readCsv` (`None` for any failure of
    `pd.read_csv`); every failure ends in the empty table. */
module SeoLoader {
  import opened Wrappers
  import opened Text
  import opened Frame
  import opened SeoRules

  /** The regex class `[a-zA-Z0-9-_]`. */
  predicate IsIdChar(c: char) {
    ('a' <= c <= 'z') || ('A' <= c <= 'Z') || ('0' <= c <= '9') || c == '-' || c == '_'
  }

  /** The regex class `[0-9]`. */
  predicate IsDigit(c: char) {
    '0' <= c <= '9'
  }

  /** The pattern `lit([cls]+)` matches `s` at index `i`: `lit` occurs there
      and at least one character of the class follows it. */
  predicate PatternAt(s: string, lit: string, cls: char -> bool, i: int) {
    OccursAt(s, lit, i) && i + |lit| < |s| && cls(s[i + |lit|])
  }

  /** The leftmost index at or after `from` where the pattern matches, as
      `re.search` scans. */
  function FirstMatch(s: string, lit: string, cls: char -> bool, from: nat): (r: Option<nat>)
    decreases |s| - from
    ensures r.Some? ==> from <= r.value && PatternAt(s, lit, cls, r.value)
    ensures forall j :: from <= j && (r.None? || j < r.value) ==> !PatternAt(s, lit, cls, j)
  {
    if from >= |s| then None
    else if PatternAt(s, lit, cls, from) then Some(from)
    else FirstMatch(s, lit, cls, from + 1)
  }

  /** The end of the longest run of `cls` characters starting at `start`:
      the greedy `+`. */
  function RunEnd(s: string, cls: char -> bool, start: nat): (e: nat)
    requires start <= |s|
    decreases |s| - start
    ensures start <= e <= |s|
    ensures forall k :: start <= k < e ==> cls(s[k])
    ensures e == |s| || !cls(s[e])
  {
    if start < |s| && cls(s[start]) then RunEnd(s, cls, start + 1) else start
  }

  /** `re.search(lit + "([cls]+)", s).group(1)`, or `None` without a match. */
  function Group(s: string, lit: string, cls: char -> bool): (g: Option<string>)
    ensures g.Some? ==> |g.value| > 0 && forall k :: 0 <= k < |g.value| ==> cls(g.value[k])
    ensures g.None? <==> forall i :: 0 <= i ==> !PatternAt(s, lit, cls, i)
    ensures g.Some? ==> exists i: nat :: (PatternAt(s, lit, cls, i)
      && (forall j :: 0 <= j < i ==> !PatternAt(s, lit, cls, j))
      && g.value == s[i + |lit|..RunEnd(s, cls, i + |lit|)])
  {
    match FirstMatch(s, lit, cls, 0)
    case None => None
    case Some(i) => Some(s[i + |lit|..RunEnd(s, cls, i + |lit|)])
  }

  const SheetPrefix := "https://docs.google.com/spreadsheets/d/"
  const ExportInfix := "/export?format=csv&gid="

  /** A spreadsheet id as the pattern captures it. */
  predicate IsSheetId(id: string) {
    |id| > 0 && forall k :: 0 <= k < |id| ==> IsIdChar(id[k])
  }

  /** A sheet gid as the pattern captures it. */
  predicate IsGid(gid: string) {
    |gid| > 0 && forall k :: 0 <= k < |gid| ==> IsDigit(gid[k])
  }

  /** The CSV export link of sheet `gid` of spreadsheet `id`. */
  function ExportUrl(id: string, gid: string): string {
    SheetPrefix + id + ExportInfix + gid
  }

  /** `_convert_google_sheet_to_csv`: the id after the first "/d/", the gid
      after the first "gid=" or "0", or the error of a link with no id. */
  function ConvertGoogleSheetToCsv(url: string): (r: Result<string, string>)
    ensures r.Failure? <==> Group(url, "/d/", IsIdChar).None?
    ensures r.Failure? ==> r.error == "Invalid Google Sheets URL"
    ensures r.Success? ==> exists id, gid :: IsSheetId(id) && IsGid(gid) && r.value == ExportUrl(id, gid)
    ensures r.Success? ==>
      r.value == ExportUrl(Group(url, "/d/", IsIdChar).value, Group(url, "gid=", IsDigit).GetOr("0"))
  {
    var sheetId := Group(url, "/d/", IsIdChar);
    var gid := Group(url, "gid=", IsDigit).GetOr("0");
    if sheetId.None? then Failure("Invalid Google Sheets URL")
    else
      assert IsSheetId(sheetId.value) && IsGid(gid);
      Success(ExportUrl(sheetId.value, gid))
  }

  /** If the pattern matches at `i` and nowhere in `[from, i)`, the search
      from `from` finds `i`. */
  lemma {:induction false} FirstMatchIsLeast(s: string, lit: string, cls: char -> bool, from: nat, i: nat)
    requires from <= i && PatternAt(s, lit, cls, i)
    requires forall j :: from <= j < i ==> !PatternAt(s, lit, cls, j)
    ensures FirstMatch(s, lit, cls, from) == Some(i)
    decreases i - from
  {
    if from < i {
      FirstMatchIsLeast(s, lit, cls, from + 1, i);
    }
  }

  /** A run of `cls` characters that ends at `e` is the greedy run. */
  lemma {:induction false} RunEndIsMaximal(s: string, cls: char -> bool, start: nat, e: nat)
    requires start <= e <= |s|
    requires forall k :: start <= k < e ==> cls(s[k])
    requires e == |s| || !cls(s[e])
    ensures RunEnd(s, cls, start) == e
    decreases e - start
  {
    if start < e {
      RunEndIsMaximal(s, cls, start + 1, e);
    }
  }

  /** `u` is laid out as an export link of `id` and `gid`, character by
      character. */
  predicate IsLaidOut(u: string, id: string, gid: string) {
    var m := |SheetPrefix| + |id|;
    && |u| == m + |ExportInfix| + |gid|
    && (forall k :: 0 <= k < |SheetPrefix| ==> u[k] == SheetPrefix[k])
    && (forall k :: |SheetPrefix| <= k < m ==> u[k] == id[k - |SheetPrefix|])
    && (forall k :: m <= k < m + |ExportInfix| ==> u[k] == ExportInfix[k - m])
    && (forall k :: m + |ExportInfix| <= k < |u| ==> u[k] == gid[k - m - |ExportInfix|])
  }

  lemma ExportUrlLayout(id: string, gid: string)
    ensures |SheetPrefix| == 39 && |ExportInfix| == 23
    ensures IsLaidOut(ExportUrl(id, gid), id, gid)
  {
  }

  /** The one "/d/" of the prefix is at its end. */
  lemma PrefixSlashD()
    ensures forall j :: 0 <= j < 36 ==> !(SheetPrefix[j] == '/' && SheetPrefix[j + 1] == 'd' && SheetPrefix[j + 2] == '/')
    ensures SheetPrefix[36] == '/' && SheetPrefix[37] == 'd' && SheetPrefix[38] == '/'
    ensures forall j :: 0 <= j < 39 ==> SheetPrefix[j] != '='
  {
  }

  /** The infix holds '=' only after "format" and at its end, after "gid". */
  lemma InfixEquals()
    ensures forall k :: 0 <= k < 23 && ExportInfix[k] == '=' ==> k == 14 || k == 22
    ensures ExportInfix[0] == '/' && ExportInfix[11] == 'm'
    ensures ExportInfix[19] == 'g' && ExportInfix[20] == 'i' && ExportInfix[21] == 'd' && ExportInfix[22] == '='
  {
  }

  /** In an export link, the first "/d/" is the one before the id. */
  lemma LaidOutSheetId(u: string, id: string, gid: string)
    requires IsLaidOut(u, id, gid) && IsSheetId(id)
    ensures Group(u, "/d/", IsIdChar) == Some(id)
  {
    assert |SheetPrefix| == 39 && |ExportInfix| == 23;
    PrefixSlashD();
    InfixEquals();
    OccursAtByChars(u, "/d/", 36);
    assert u[39] == id[0];
    forall j | 0 <= j < 36 ensures !PatternAt(u, "/d/", IsIdChar, j) {
      if OccursAt(u, "/d/", j) {
        OccursAtChar(u, "/d/", j, 0);
        OccursAtChar(u, "/d/", j, 1);
        OccursAtChar(u, "/d/", j, 2);
      }
    }
    FirstMatchIsLeast(u, "/d/", IsIdChar, 0, 36);
    RunEndIsMaximal(u, IsIdChar, 39, 39 + |id|);
    assert u[39..39 + |id|] == id;
  }

  /** Before the gid's own "gid=", an export link holds no "gid=": the
      prefix and the id hold no '=', and the infix's other '=' follows "mat". */
  lemma LaidOutNoEarlyGid(u: string, id: string, gid: string, j: int)
    requires IsLaidOut(u, id, gid) && IsSheetId(id) && 0 <= j < 39 + |id| + 19
    ensures !OccursAt(u, "gid=", j)
  {
    assert |SheetPrefix| == 39 && |ExportInfix| == 23;
    PrefixSlashD();
    InfixEquals();
    if OccursAt(u, "gid=", j) {
      OccursAtChar(u, "gid=", j, 0);
      OccursAtChar(u, "gid=", j, 3);
    }
  }

  /** In an export link, the first "gid=" followed by a digit is the one
      before the gid, which runs to the end. */
  lemma LaidOutGid(u: string, id: string, gid: string)
    requires IsLaidOut(u, id, gid) && IsSheetId(id) && IsGid(gid)
    ensures Group(u, "gid=", IsDigit) == Some(gid)
  {
    assert |SheetPrefix| == 39 && |ExportInfix| == 23;
    var g := 39 + |id| + 19;
    InfixEquals();
    OccursAtByChars(u, "gid=", g);
    assert u[g + 4] == gid[0];
    forall j | 0 <= j < g ensures !PatternAt(u, "gid=", IsDigit, j) {
      LaidOutNoEarlyGid(u, id, gid, j);
    }
    FirstMatchIsLeast(u, "gid=", IsDigit, 0, g);
    RunEndIsMaximal(u, IsDigit, g + 4, |u|);
    assert u[g + 4..|u|] == gid;
  }

  /** Converting an export link gives it back unchanged. */
  lemma ConvertExportUrl(id: string, gid: string)
    requires IsSheetId(id) && IsGid(gid)
    ensures ConvertGoogleSheetToCsv(ExportUrl(id, gid)) == Success(ExportUrl(id, gid))
  {
    ExportUrlLayout(id, gid);
    LaidOutSheetId(ExportUrl(id, gid), id, gid);
    LaidOutGid(ExportUrl(id, gid), id, gid);
  }

  /** Conversion is idempotent. */
  lemma ConvertIdempotent(url: string)
    requires ConvertGoogleSheetToCsv(url).Success?
    ensures ConvertGoogleSheetToCsv(ConvertGoogleSheetToCsv(url).value) == ConvertGoogleSheetToCsv(url)
  {
    var id, gid :| IsSheetId(id) && IsGid(gid) && ConvertGoogleSheetToCsv(url).value == ExportUrl(id, gid);
    ConvertExportUrl(id, gid);
  }

  /** `c.strip().lower()`: the loader's column-label normalisation. */
  function NormalizeColumn(c: string): (r: string)
    ensures IsLower(r) && IsStripped(r)
  {
    StripIsMaximalBlock(c);
    LowerPreservesStripped(Strip(c));
    Lower(Strip(c))
  }

  lemma LowerPreservesStripped(s: string)
    requires IsStripped(s)
    ensures IsStripped(Lower(s))
  {
  }

  /** Normalising a label twice is normalising it once. */
  lemma NormalizeIdempotent(c: string)
    ensures NormalizeColumn(NormalizeColumn(c)) == NormalizeColumn(c)
  {
    NormalizeFixesNormal(NormalizeColumn(c));
  }

  /** A label with no capital and no surrounding whitespace is left alone. */
  lemma NormalizeFixesNormal(c: string)
    requires IsLower(c) && IsStripped(c)
    ensures NormalizeColumn(c) == c
  {
    StripOfStripped(c);
    LowerOfLower(c);
  }

  /** Every rule's target column is already normalised, so it can equal a
      label the loader produced. */
  lemma RuleColumnNormalised(key: string)
    requires key in Rules
    ensures NormalizeColumn(Rules[key].column) == Rules[key].column
  {
    if key == "long_title" {
      LongTitleRule();
    } else if key == "missing_meta" {
      MissingMetaRule();
    } else {
      NonIndexableRule();
    }
    NormalizeFixesNormal(Rules[key].column);
  }

  /** `df.columns = [c.strip().lower() for c in df.columns]`. */
  function NormalizeColumns(columns: seq<string>): (r: seq<string>)
    ensures |r| == |columns|
    ensures forall i :: 0 <= i < |r| ==> r[i] == NormalizeColumn(columns[i])
  {
    seq(|columns|, i requires 0 <= i < |columns| => NormalizeColumn(columns[i]))
  }

  /** What `read_csv` is given: a Google Sheets link becomes its export
      link, any other source is read as it is. */
  function ReadTarget(source: string): (r: Result<string, string>)
    ensures !Contains(source, "docs.google.com/spreadsheets") ==> r == Success(source)
    ensures Contains(source, "docs.google.com/spreadsheets") ==> r == ConvertGoogleSheetToCsv(source)
  {
    if Contains(source, "docs.google.com/spreadsheets") then ConvertGoogleSheetToCsv(source)
    else Success(source)
  }

  /** `load_seo_data`. `readCsv` stands for `pd.read_csv`, returning `None`
      for any failure it raises. */
  function LoadSeoData(source: Option<string>, readCsv: string -> Option<Table>): (t: Table)
    ensures source.None? || source == Some("") ==> t == EmptyTable
    ensures forall i :: 0 <= i < |t.columns| ==> IsLower(t.columns[i]) && IsStripped(t.columns[i])
  {
    if source.None? || source.value == "" then EmptyTable
    else
      match ReadTarget(source.value)
      case Failure(_) => EmptyTable
      case Success(url) =>
        match readCsv(url)
        case None => EmptyTable
        case Some(raw) => Table(NormalizeColumns(raw.columns), raw.rows)
  }

  /** Loading keeps the rows as read and renames every column in place:
      count and order of the labels are preserved. */
  lemma LoadedTable(source: string, readCsv: string -> Option<Table>)
    requires source != "" && ReadTarget(source).Success?
    requires readCsv(ReadTarget(source).value).Some?
    ensures var raw := readCsv(ReadTarget(source).value).value;
            var t := LoadSeoData(Some(source), readCsv);
            t.rows == raw.rows && |t.columns| == |raw.columns|
            && forall i :: 0 <= i < |raw.columns| ==> t.columns[i] == NormalizeColumn(raw.columns[i])
  {
  }

  /** A Sheets link without an id, whose conversion raises, or a source
      whose read fails, loads the empty table. */
  lemma LoadFailureIsEmpty(source: string, readCsv: string -> Option<Table>)
    ensures Contains(source, "docs.google.com/spreadsheets") && ConvertGoogleSheetToCsv(source).Failure? ==>
      LoadSeoData(Some(source), readCsv) == EmptyTable
    ensures ReadTarget(source).Success? && readCsv(ReadTarget(source).value).None? ==>
      LoadSeoData(Some(source), readCsv) == EmptyTable
  {
  }

  /** A link to Google Sheets with no "/d/<id>" is never read: the loader
      gives the empty table whatever `read_csv` would return. */
  lemma IdlessSheetLinkLoadsEmpty(source: string, readCsv: string -> Option<Table>)
    requires Contains(source, "docs.google.com/spreadsheets")
    requires Group(source, "/d/", IsIdChar).None?
    ensures ReadTarget(source) == Failure("Invalid Google Sheets URL")
    ensures LoadSeoData(Some(source), readCsv) == EmptyTable
  {
  }

  /** An export link is read as it is: it is a Sheets link, and converting
      it gives it back. */
  lemma ExportUrlReadsItself(id: string, gid: string)
    requires IsSheetId(id) && IsGid(gid)
    ensures ReadTarget(ExportUrl(id, gid)) == Success(ExportUrl(id, gid))
  {
    var u := ExportUrl(id, gid);
    assert SheetPrefix == "https://" + "docs.google.com/spreadsheets" + "/d/";
    ContainsAt(SheetPrefix, "docs.google.com/spreadsheets", 8);
    ContainsInPrefix(SheetPrefix, id + ExportInfix + gid, "docs.google.com/spreadsheets");
    assert u == SheetPrefix + (id + ExportInfix + gid);
    ConvertExportUrl(id, gid);
  }

  /** Loading a Sheets edit link and loading its export link read the same
      table. */
  lemma LoadExportLinkSameAsEditLink(source: string, readCsv: string -> Option<Table>)
    requires Contains(source, "docs.google.com/spreadsheets")
    requires ConvertGoogleSheetToCsv(source).Success?
    ensures LoadSeoData(Some(ConvertGoogleSheetToCsv(source).value), readCsv) == LoadSeoData(Some(source), readCsv)
  {
    var id, gid :| IsSheetId(id) && IsGid(gid) && ConvertGoogleSheetToCsv(source).value == ExportUrl(id, gid);
    ExportUrlReadsItself(id, gid);
  }
}
