/**
 * `CodeEditor`: shows a contract line by line with keyword colouring, a
 * highlighted line that cycles while an analysis runs, and a textarea in
 * editable mode whose changes are passed to the `onChange` callback.
 */
module CodeEditor {
  import opened Wrappers
  import Text

  /** The colour class of a word: the first group that matches wins. */
  datatype WordClass = Blue | Purple | Emerald | Plain

  predicate BlueWord(word: string) {
    Text.Includes(word, "function") || Text.Includes(word, "contract") || Text.Includes(word, "pragma")
  }

  predicate PurpleWord(word: string) {
    Text.Includes(word, "public") || Text.Includes(word, "private") || Text.Includes(word, "internal")
  }

  predicate EmeraldWord(word: string) {
    Text.Includes(word, "uint") || Text.Includes(word, "address") || Text.Includes(word, "bool")
  }

  /** The nested conditional that picks a word's class, by case-sensitive substring. */
  function Classify(word: string): (c: WordClass)
    ensures c == Blue <==> BlueWord(word)
    ensures c == Purple <==> !BlueWord(word) && PurpleWord(word)
    ensures c == Emerald <==> !BlueWord(word) && !PurpleWord(word) && EmeraldWord(word)
    ensures c == Plain <==> !BlueWord(word) && !PurpleWord(word) && !EmeraldWord(word)
  {
    if BlueWord(word) then Blue
    else if PurpleWord(word) then Purple
    else if EmeraldWord(word) then Emerald
    else Plain
  }

  /** A word shorter than a keyword does not include it. */
  lemma {:induction false} ShorterExcludes(s: string, p: string)
    requires |s| < |p|
    ensures !Text.Includes(s, p)
    decreases |s|
  {
    if s != [] {
      ShorterExcludes(s[1..], p);
    }
  }

  /** A word of a keyword's length includes it only when it is that keyword. */
  lemma SameLengthIncludes(s: string, p: string)
    requires |s| == |p|
    ensures Text.Includes(s, p) <==> s == p
  {
    if s != [] {
      ShorterExcludes(s[1..], p);
    }
  }

  /** A type keyword on its own is emerald: no keyword of the earlier groups fits in it. */
  lemma TypeKeywordIsEmerald()
    ensures Classify("uint") == Emerald
  {
    ShorterExcludes("uint", "function");
    ShorterExcludes("uint", "contract");
    ShorterExcludes("uint", "pragma");
    ShorterExcludes("uint", "public");
    ShorterExcludes("uint", "private");
    ShorterExcludes("uint", "internal");
    assert "uint" <= "uint";
  }

  /** A visibility keyword on its own is purple. */
  lemma VisibilityKeywordIsPurple()
    ensures Classify("public") == Purple
  {
    ShorterExcludes("public", "function");
    ShorterExcludes("public", "contract");
    SameLengthIncludes("public", "pragma");
    assert "public" <= "public";
  }

  /** A keyword whose first letter does not appear in a word is not included in it. */
  lemma {:induction false} FirstLetterAbsent(s: string, p: string)
    requires p != [] && p[0] !in s
    ensures !Text.Includes(s, p)
    decreases |s|
  {
    if s != [] {
      assert s[0] in s;
      assert forall c :: c in s[1..] ==> c in s;
      FirstLetterAbsent(s[1..], p);
    }
  }

  /** Matching is case-sensitive: a capitalised keyword is not coloured. */
  lemma CapitalisedKeywordIsPlain()
    ensures Classify("Pragma") == Plain
  {
    ShorterExcludes("Pragma", "function");
    ShorterExcludes("Pragma", "contract");
    SameLengthIncludes("Pragma", "pragma");
    FirstLetterAbsent("Pragma", "public");
    FirstLetterAbsent("Pragma", "private");
    ShorterExcludes("Pragma", "internal");
    FirstLetterAbsent("Pragma", "uint");
    ShorterExcludes("Pragma", "address");
    FirstLetterAbsent("Pragma", "bool");
  }

  /** A word with keywords of several groups takes the class of the first group. */
  lemma FirstGroupWins(word: string)
    requires "function" <= word && Text.Includes(word, "public") && Text.Includes(word, "uint")
    ensures Classify(word) == Blue
  {
  }

  /** `line.split(" ")`, each word with its class. */
  function ClassifyLine(line: string): (r: seq<(string, WordClass)>)
    ensures |r| == |Text.SplitOn(line, ' ')|
    ensures forall i :: 0 <= i < |r| ==> r[i] == (Text.SplitOn(line, ' ')[i], Classify(Text.SplitOn(line, ' ')[i]))
  {
    var words := Text.SplitOn(line, ' ');
    seq(|words|, i requires 0 <= i < |words| => (words[i], Classify(words[i])))
  }

  /** `text.split("\n").length`. */
  function LineCount(text: string): (n: nat)
    ensures n == Text.Count('\n', text) + 1
  {
    Text.SplitOnLength(text, '\n');
    |Text.SplitOn(text, '\n')|
  }

  /** The numbers written beside the lines, `index + 1` for each line. */
  function LineNumbers(text: string): (r: seq<nat>)
    ensures |r| == LineCount(text) && forall i :: 0 <= i < |r| ==> r[i] == i + 1
  {
    seq(LineCount(text), i => i + 1)
  }

  /** The component with its props (`code`, `isAnalyzing`, `editable`, whether `onChange` is given) and its state. */
  class Editor {
    var code: string
    var isAnalyzing: bool
    var editable: bool
    var hasOnChange: bool
    var displayedCode: string
    var currentLine: nat

    /** Mounting: the effect on `code` has copied it into `displayedCode`; `editable` defaults to false. */
    constructor(code: string, isAnalyzing: bool, hasOnChange: bool, editable: bool := false)
      ensures this.code == code && this.isAnalyzing == isAnalyzing
      ensures this.editable == editable && this.hasOnChange == hasOnChange
      ensures displayedCode == code && currentLine == 0
    {
      this.code := code;
      this.isAnalyzing := isAnalyzing;
      this.editable := editable;
      this.hasOnChange := hasOnChange;
      displayedCode := code;
      currentLine := 0;
    }

    /** A new `code` prop: the effect overwrites `displayedCode` when the prop has changed. */
    method SetCode(newCode: string)
      modifies this
      ensures code == newCode
      ensures displayedCode == if newCode != old(code) then newCode else old(displayedCode)
      ensures currentLine == old(currentLine) && isAnalyzing == old(isAnalyzing)
      ensures editable == old(editable) && hasOnChange == old(hasOnChange)
    {
      if newCode != code {
        displayedCode := newCode;
      }
      code := newCode;
    }

    /** A new `isAnalyzing` prop; the highlighted line is kept. */
    method SetAnalyzing(analyzing: bool)
      modifies this
      ensures isAnalyzing == analyzing
      ensures code == old(code) && displayedCode == old(displayedCode) && currentLine == old(currentLine)
      ensures editable == old(editable) && hasOnChange == old(hasOnChange)
    {
      isAnalyzing := analyzing;
    }

    /**
     * One interval tick: the interval only runs while analyzing, and moves the
     * highlight to the next line of the `code` prop, wrapping to the first.
     */
    method Tick()
      modifies this
      ensures isAnalyzing ==> currentLine == (old(currentLine) + 1) % LineCount(code)
      ensures isAnalyzing ==> currentLine < LineCount(code)
      ensures !isAnalyzing ==> currentLine == old(currentLine)
      ensures code == old(code) && displayedCode == old(displayedCode) && isAnalyzing == old(isAnalyzing)
      ensures editable == old(editable) && hasOnChange == old(hasOnChange)
    {
      if isAnalyzing {
        var lines := Text.SplitOn(code, '\n');
        currentLine := (currentLine + 1) % |lines|;
      }
    }

    /** `handleCodeChange`: the text shown becomes the new text, which is passed to `onChange` when given. */
    method HandleCodeChange(newCode: string) returns (notified: Option<string>)
      modifies this
      ensures displayedCode == newCode
      ensures notified == if hasOnChange then Some(newCode) else None
      ensures code == old(code) && currentLine == old(currentLine) && isAnalyzing == old(isAnalyzing)
      ensures editable == old(editable) && hasOnChange == old(hasOnChange)
    {
      displayedCode := newCode;
      if hasOnChange {
        notified := Some(newCode);
      } else {
        notified := None;
      }
    }

    /** `editable && !isAnalyzing`: the textarea is rendered instead of the listing. */
    predicate ShowsTextarea()
      reads this
    {
      editable && !isAnalyzing
    }

    /** Line `index` of the listing is highlighted. */
    predicate Highlighted(index: nat)
      reads this
    {
      isAnalyzing && index == currentLine
    }
  }

  /** An editor mounted without `editable` never shows the textarea, and highlights no line unless analyzing. */
  method MountReadOnly(code: string, isAnalyzing: bool) returns (e: Editor)
    ensures !e.ShowsTextarea()
    ensures !isAnalyzing ==> forall i: nat :: !e.Highlighted(i)
    ensures e.displayedCode == code && LineNumbers(e.displayedCode) == seq(Text.Count('\n', code) + 1, i => i + 1)
  {
    e := new Editor(code, isAnalyzing, false);
  }

  /** While analyzing, any number of ticks keeps the highlight on an existing line of the `code` prop. */
  method TickWhileAnalyzing(e: Editor, n: nat)
    requires e.isAnalyzing && n > 0
    modifies e
    ensures e.currentLine < LineCount(e.code)
    ensures e.code == old(e.code) && e.displayedCode == old(e.displayedCode)
  {
    e.Tick();
    var k := 1;
    while k < n
      invariant 1 <= k <= n
      invariant e.isAnalyzing && e.currentLine < LineCount(e.code)
      invariant e.code == old(e.code) && e.displayedCode == old(e.displayedCode)
    {
      e.Tick();
      k := k + 1;
    }
  }
}
