/**
 * Prompt selection (lib/ai/prompts.ts). The long regular and artifacts
 * prompts are fixed texts in the source; here they are parameters, since the
 * properties below hold whatever they say.
 */
module Prompts {
  import opened Wrappers
  import opened Text

  const ReasoningModel: string := "chat-model-reasoning"

  /** `systemPrompt({selectedChatModel})` */
  function SystemPrompt(selectedChatModel: string, regular: string, artifacts: string): (r: string)
    ensures selectedChatModel == ReasoningModel ==> r == regular
    ensures selectedChatModel != ReasoningModel ==> r == regular + "\n\n" + artifacts
    ensures StartsWith(r, regular)
  {
    if selectedChatModel == ReasoningModel then regular else regular + "\n\n" + artifacts
  }

  /** What each document kind's update prompt asks to improve. */
  function Subject(kind: string): Option<string> {
    match kind
    case "text" => Some("contents of the document")
    case "code" => Some("code snippet")
    case "sheet" => Some("spreadsheet")
    case _ => None
  }

  /** The instruction line of the update prompt for each document kind that has one. */
  function Instruction(kind: string): Option<string> {
    match Subject(kind)
    case Some(subject) => Some("Improve the following " + subject + " based on the given prompt.")
    case None => None
  }

  /** `${currentContent}` for a string or null. */
  function ContentText(currentContent: Option<string>): string {
    match currentContent
    case Some(c) => c
    case None => "null"
  }

  /** `updateDocumentPrompt(currentContent, type)`: the instruction line, a blank line, the content and a newline. */
  function UpdateDocumentPrompt(currentContent: Option<string>, kind: string): (r: string)
    ensures kind != "text" && kind != "code" && kind != "sheet" ==> r == ""
    ensures Instruction(kind).Some? ==> r == Instruction(kind).value + "\n\n" + ContentText(currentContent) + "\n"
  {
    match Instruction(kind)
    case Some(line) => line + "\n\n" + ContentText(currentContent) + "\n"
    case None => ""
  }

  /** The content can be read back out of an update prompt: it sits between the blank line and the final newline. */
  lemma ContentRecoverable(currentContent: Option<string>, kind: string)
    requires kind == "text" || kind == "code" || kind == "sheet"
    ensures
      var r := UpdateDocumentPrompt(currentContent, kind);
      var n := |Instruction(kind).value| + 2;
      n <= |r| - 1 && r[n..|r| - 1] == ContentText(currentContent) && r[|r| - 1] == '\n'
  {
    var line := Instruction(kind).value;
    var c := ContentText(currentContent);
    var r := UpdateDocumentPrompt(currentContent, kind);
    assert r == line + "\n\n" + c + "\n";
    assert r[|line| + 2..|r| - 1] == c;
  }

  /** The character that tells the three instruction lines apart ('contents', 'code', 'spreadsheet'). */
  function Mark(kind: string): char {
    if kind == "text" then 'n' else if kind == "code" then 'd' else 'r'
  }

  lemma MarkAt(c: Option<string>, kind: string)
    requires Instruction(kind).Some?
    ensures |UpdateDocumentPrompt(c, kind)| > 24 && UpdateDocumentPrompt(c, kind)[24] == Mark(kind)
  {
    var line := Instruction(kind).value;
    var subject := Subject(kind).value;
    assert UpdateDocumentPrompt(c, kind)[..|line|] == line;
    assert line[24] == subject[2];
  }

  /** The three kinds get different prompts, whatever their contents. */
  lemma KindsDiffer(a: Option<string>, b: Option<string>, k1: string, k2: string)
    requires Instruction(k1).Some? && Instruction(k2).Some? && k1 != k2
    ensures UpdateDocumentPrompt(a, k1) != UpdateDocumentPrompt(b, k2)
  {
    var r1 := UpdateDocumentPrompt(a, k1);
    var r2 := UpdateDocumentPrompt(b, k2);
    MarkAt(a, k1);
    MarkAt(b, k2);
    assert r1[24] != r2[24];
  }
}
