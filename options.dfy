/** The command-line options and the choice of output writer they lead to. */
module Options {

  datatype Format = Table | Csv | Json

  /** `--human-readable/-h` (default false) and `--format/-f` (default "table"). */
  datatype Options = Options(isHumanReadable: bool, format: string)

  const DefaultFormat: string := "table"

  /** What `Options.Parse` does next: carry on, or print the usage and exit with the given status. */
  datatype ParseOutcome = Continue | ExitWithUsage(status: int)

  /** The flag value that names each writer. */
  function FormatName(k: Format): string
  {
    match k
    case Table => "table"
    case Csv => "csv"
    case Json => "json"
  }

  /** `Options.Parse`: accepts exactly the three format names; any other value exits, with status 0. */
  function Parse(o: Options): (r: ParseOutcome)
    ensures r == Continue <==> exists k: Format :: o.format == FormatName(k)
    ensures r.ExitWithUsage? ==> r.status == 0
  {
    match o.format
    case "table" => assert o.format == FormatName(Table); Continue
    case "csv" => assert o.format == FormatName(Csv); Continue
    case "json" => assert o.format == FormatName(Json); Continue
    case _ => ExitWithUsage(0)
  }

  /** The writer `main` builds: CSV for "csv", JSON for "json", the table writer for anything else. */
  function SelectWriter(format: string): (k: Format)
    ensures k == Csv <==> format == "csv"
    ensures k == Json <==> format == "json"
    ensures k == Table <==> format != "csv" && format != "json"
  {
    match format
    case "csv" => Csv
    case "json" => Json
    case _ => Table
  }

  /** Every writer has a name that Parse accepts and that selects that writer. */
  lemma SelectWriterOfName(k: Format)
    ensures Parse(Options(false, FormatName(k))) == Continue
    ensures SelectWriter(FormatName(k)) == k
  {
  }

  /** Once Parse has accepted a format, the writer chosen is the one the format names. */
  lemma SelectWriterAfterParse(o: Options)
    requires Parse(o) == Continue
    ensures FormatName(SelectWriter(o.format)) == o.format
  {
  }

  /** The default format is accepted and selects the table writer. */
  lemma DefaultIsTable()
    ensures Parse(Options(false, DefaultFormat)) == Continue
    ensures SelectWriter(DefaultFormat) == Table
  {
  }
}
