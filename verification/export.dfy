/** The file names chosen by the export handler
    (`ai_agent/handlers/export_handler.py`). The timestamp,
    `datetime.now().strftime("%Y%m%d_%H%M%S")`, is an input; directory
    creation and the file write are outside the model. */
module Export {
  import opened Wrappers
  import opened Text

  /** `extension_map` */
  const Extensions: map<string, string> :=
    map["python" := ".py", "javascript" := ".js", "shell" := ".sh", "html" := ".html"]

  const DefaultExtension := ".txt"

  /** `extension_map.get(language.lower(), ".txt")` */
  function Extension(language: string): (ext: string)
    ensures ext == DefaultExtension <==> Lower(language) !in Extensions
    ensures Lower(language) in Extensions ==> ext == Extensions[Lower(language)]
    ensures |ext| > 0
  {
    var key := Lower(language);
    if key in Extensions then Extensions[key] else DefaultExtension
  }

  /** The language name is matched without regard to case. */
  lemma ExtensionIgnoresCase(language: string)
    ensures Extension(Lower(language)) == Extension(language)
  {
    LowerIdempotent(language);
  }

  /** `not filename` for an optional file name. */
  predicate Missing(filename: Option<string>) {
    filename.None? || |filename.value| == 0
  }

  lemma EndsWithAppended(a: string, b: string)
    ensures EndsWith(a + b, b)
  {
    assert (a + b)[|a + b| - |b|..] == b;
  }

  /** The name `export_code(code, language="python", filename=None)` writes
      to, with the timestamp it would take as the first argument. */
  function CodeFilename(timestamp: string, language: string := "python", filename: Option<string> := None): (name: string)
    ensures EndsWith(name, Extension(language))
    ensures Missing(filename) ==> name == "code_" + timestamp + Extension(language)
    ensures !Missing(filename) ==> StartsWith(name, filename.value)
    ensures !Missing(filename) && EndsWith(filename.value, Extension(language)) ==> name == filename.value
    ensures !Missing(filename) && !EndsWith(filename.value, Extension(language)) ==>
              |name| == |filename.value| + |Extension(language)|
  {
    var ext := Extension(language);
    if Missing(filename) then
      EndsWithAppended("code_" + timestamp, ext);
      "code_" + timestamp + ext
    else if !EndsWith(filename.value, ext) then
      EndsWithAppended(filename.value, ext);
      assert (filename.value + ext)[..|filename.value|] == filename.value;
      filename.value + ext
    else filename.value
  }

  /** Feeding the chosen name back in chooses it again. */
  lemma CodeFilenameIdempotent(language: string, filename: Option<string>, timestamp: string, later: string)
    ensures CodeFilename(later, language, Some(CodeFilename(timestamp, language, filename)))
            == CodeFilename(timestamp, language, filename)
  {
  }

  /** The name `export_to_text(content, filename)` writes to. */
  function TextFilename(filename: Option<string>, timestamp: string): (name: string)
    ensures Missing(filename) ==> name == "export_" + timestamp + DefaultExtension
    ensures !Missing(filename) ==> name == filename.value
    ensures |name| > 0
  {
    if Missing(filename) then "export_" + timestamp + DefaultExtension else filename.value
  }

  /** With the default language and no name, the code goes to a `.py` file
      named after the timestamp. */
  lemma DefaultCodeFilename(timestamp: string)
    ensures CodeFilename(timestamp) == "code_" + timestamp + ".py"
  {
    assert Lower("python") == "python";
  }

  /** `export_code` hands its name to `export_to_text` unchanged. */
  lemma ExportCodeKeepsName(language: string, filename: Option<string>, timestamp: string, later: string)
    ensures TextFilename(Some(CodeFilename(timestamp, language, filename)), later)
            == CodeFilename(timestamp, language, filename)
  {
  }
}
