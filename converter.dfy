/**
 * The command line handed to the converter (Program.cs line 115), and a reader
 * that splits a command line into arguments the way a Windows program does:
 * spaces outside double quotes separate arguments and the quotes themselves are
 * dropped. Backslash escapes are not modelled; no quote in the line below
 * follows a backslash.
 */
module Converter {
  import opened Paths

  /** "serialize -i \"<tempDir\\file>\" -o \"<sourceDir\\file>.yaml\" -p Spriggit.yaml -g SkyrimSE" */
  function Arguments(tempDir: string, sourcePath: string, sourceFile: string): string {
    "serialize -i \"" + Combine(tempDir, sourceFile) + "\" -o \"" + Combine(sourcePath, sourceFile)
      + ".yaml\" -p Spriggit.yaml -g SkyrimSE"
  }

  /** Appends the argument being read, if there is one. */
  function Flush(args: seq<string>, current: string): seq<string> {
    if current == [] then args else args + [current]
  }

  /** Reads `s`, inside quotes or not, with `current` read so far of the pending argument. */
  function Scan(s: string, quoted: bool, current: string, args: seq<string>): seq<string>
    decreases |s|
  {
    if s == [] then Flush(args, current)
    else if s[0] == '"' then Scan(s[1..], !quoted, current, args)
    else if s[0] == ' ' && !quoted then Scan(s[1..], false, [], Flush(args, current))
    else Scan(s[1..], quoted, current + [s[0]], args)
  }

  function SplitArguments(s: string): seq<string> {
    Scan(s, false, [], [])
  }

  predicate NoSpace(s: string) {
    forall i :: 0 <= i < |s| ==> s[i] != ' '
  }

  /** Characters without quotes (and, outside quotes, without spaces) just extend the pending argument. */
  lemma {:induction false} ScanPlain(w: string, rest: string, quoted: bool, current: string, args: seq<string>)
    requires NoQuote(w) && (quoted || NoSpace(w))
    ensures Scan(w + rest, quoted, current, args) == Scan(rest, quoted, current + w, args)
    decreases |w|
  {
    if w == [] {
      assert w + rest == rest && current + w == current;
    } else {
      assert (w + rest)[1..] == w[1..] + rest;
      ScanPlain(w[1..], rest, quoted, current + [w[0]], args);
      assert current + [w[0]] + w[1..] == current + w;
    }
  }

  /** A bare word followed by a space is one argument. */
  lemma ScanWord(w: string, rest: string, args: seq<string>)
    requires w != [] && NoQuote(w) && NoSpace(w)
    ensures Scan(w + " " + rest, false, [], args) == Scan(rest, false, [], args + [w])
  {
    assert w + " " + rest == w + (" " + rest);
    ScanPlain(w, " " + rest, false, [], args);
    assert [] + w == w;
    assert (" " + rest)[1..] == rest;
  }

  /** A quoted non-empty text followed by a space is one argument, spaces and all. */
  lemma ScanQuotedWord(w: string, rest: string, args: seq<string>)
    requires w != [] && NoQuote(w)
    ensures Scan("\"" + w + "\" " + rest, false, [], args) == Scan(rest, false, [], args + [w])
  {
    var s := "\"" + w + "\" " + rest;
    assert s[0] == '"' && s[1..] == w + ("\" " + rest);
    ScanPlain(w, "\" " + rest, true, [], args);
    assert [] + w == w;
    assert ("\" " + rest)[1..] == " " + rest;
    assert (" " + rest)[1..] == rest;
  }

  /** A final bare word is the last argument. */
  lemma ScanLast(w: string, args: seq<string>)
    requires w != [] && NoQuote(w) && NoSpace(w)
    ensures Scan(w, false, [], args) == args + [w]
  {
    ScanPlain(w, [], false, [], args);
    assert w + [] == w && [] + w == w;
  }

  lemma CombineNoQuote(dir: string, name: string)
    requires NoQuote(dir) && NoQuote(name)
    ensures NoQuote(Combine(dir, name))
  {
  }

  predicate IsBareWord(w: string) {
    w != [] && NoQuote(w) && NoSpace(w)
  }

  predicate IsQuotable(w: string) {
    w != [] && NoQuote(w)
  }

  /** Any line of the converter's shape: four bare words, a quoted input, ... splits into its nine parts. */
  lemma ScanLineShape(verb: string, i: string, input: string, o: string, output: string,
                      p: string, profile: string, g: string, game: string)
    requires IsBareWord(verb) && IsBareWord(i) && IsBareWord(o) && IsBareWord(p)
    requires IsBareWord(profile) && IsBareWord(g) && IsBareWord(game)
    requires IsQuotable(input) && IsQuotable(output)
    ensures SplitArguments(verb + " " + (i + " " + ("\"" + input + "\" " + (o + " " + ("\"" + output + "\" "
              + (p + " " + (profile + " " + (g + " " + game))))))))
      == [verb, i, input, o, output, p, profile, g, game]
  {
    var r7 := g + " " + game;
    var r6 := profile + " " + r7;
    var r5 := p + " " + r6;
    var r4 := "\"" + output + "\" " + r5;
    var r3 := o + " " + r4;
    var r2 := "\"" + input + "\" " + r3;
    var r1 := i + " " + r2;
    ScanWord(verb, r1, []);
    assert [] + [verb] == [verb];
    ScanWord(i, r2, [verb]);
    assert [verb] + [i] == [verb, i];
    ScanQuotedWord(input, r3, [verb, i]);
    assert [verb, i] + [input] == [verb, i, input];
    ScanWord(o, r4, [verb, i, input]);
    assert [verb, i, input] + [o] == [verb, i, input, o];
    ScanQuotedWord(output, r5, [verb, i, input, o]);
    assert [verb, i, input, o] + [output] == [verb, i, input, o, output];
    ScanWord(p, r6, [verb, i, input, o, output]);
    assert [verb, i, input, o, output] + [p] == [verb, i, input, o, output, p];
    ScanWord(profile, r7, [verb, i, input, o, output, p]);
    assert [verb, i, input, o, output, p] + [profile] == [verb, i, input, o, output, p, profile];
    ScanWord(g, game, [verb, i, input, o, output, p, profile]);
    assert [verb, i, input, o, output, p, profile] + [g] == [verb, i, input, o, output, p, profile, g];
    ScanLast(game, [verb, i, input, o, output, p, profile, g]);
    assert [verb, i, input, o, output, p, profile, g] + [game] == [verb, i, input, o, output, p, profile, g, game];
  }

  /** The same line written as three fixed pieces around the two paths. */
  lemma ScanLinePieces(verb: string, i: string, input: string, o: string, output: string,
                       p: string, profile: string, g: string, game: string)
    requires IsBareWord(verb) && IsBareWord(i) && IsBareWord(o) && IsBareWord(p)
    requires IsBareWord(profile) && IsBareWord(g) && IsBareWord(game)
    requires IsQuotable(input) && IsQuotable(output)
    ensures SplitArguments((verb + " " + i + " \"") + input + ("\" " + o + " \"") + output
              + ("\" " + p + " " + profile + " " + g + " " + game))
      == [verb, i, input, o, output, p, profile, g, game]
  {
    var tail := p + " " + (profile + " " + (g + " " + game));
    assert "\" " + p + " " + profile + " " + g + " " + game == "\" " + tail;
    var r4 := "\"" + output + "\" " + tail;
    var r3 := o + " " + r4;
    var r2 := "\"" + input + "\" " + r3;
    assert (verb + " " + i + " \"") + input + ("\" " + o + " \"") + output + ("\" " + tail)
      == verb + " " + (i + " " + r2);
    ScanLineShape(verb, i, input, o, output, p, profile, g, game);
  }

  /** The options and the verb of the converter's command line are bare words. */
  lemma OptionWords()
    ensures IsBareWord("serialize") && IsBareWord("-i") && IsBareWord("-o")
    ensures IsBareWord("-p") && IsBareWord("-g")
  {
  }

  /** So are the profile and the game. */
  lemma ValueWords()
    ensures IsBareWord("Spriggit.yaml") && IsBareWord("SkyrimSE") && NoQuote(".yaml")
  {
  }

  /** The literal parts of the command line, taken apart word by word. */
  lemma LiteralPieces()
    ensures "serialize -i \"" == "serialize" + " " + "-i" + " \""
    ensures "\" -o \"" == "\" " + "-o" + " \""
    ensures ".yaml\" -p Spriggit.yaml -g SkyrimSE" == ".yaml" + ("\" " + "-p" + " " + "Spriggit.yaml" + " " + "-g" + " " + "SkyrimSE")
  {
  }

  lemma NoQuoteAppend(a: string, b: string)
    requires NoQuote(a) && NoQuote(b)
    ensures NoQuote(a + b)
  {
  }

  /** Both paths on the line are non-empty and free of quotes. */
  lemma PathsQuotable(tempDir: string, sourcePath: string, sourceFile: string)
    requires NoQuote(tempDir) && NoQuote(sourcePath) && NoQuote(sourceFile) && sourceFile != ""
    ensures IsQuotable(Combine(tempDir, sourceFile)) && IsQuotable(Combine(sourcePath, sourceFile) + ".yaml")
  {
    CombineNoQuote(tempDir, sourceFile);
    CombineNoQuote(sourcePath, sourceFile);
    ValueWords();
    NoQuoteAppend(Combine(sourcePath, sourceFile), ".yaml");
  }

  /** The line as three fixed pieces around the two paths. */
  lemma ArgumentsPieces(tempDir: string, sourcePath: string, sourceFile: string)
    ensures Arguments(tempDir, sourcePath, sourceFile)
      == ("serialize" + " " + "-i" + " \"") + Combine(tempDir, sourceFile) + ("\" " + "-o" + " \"")
         + (Combine(sourcePath, sourceFile) + ".yaml")
         + ("\" " + "-p" + " " + "Spriggit.yaml" + " " + "-g" + " " + "SkyrimSE")
  {
    LiteralPieces();
    var input, source := Combine(tempDir, sourceFile), Combine(sourcePath, sourceFile);
    var tail := "\" " + "-p" + " " + "Spriggit.yaml" + " " + "-g" + " " + "SkyrimSE";
    var a, b := "serialize -i \"", "\" -o \"";
    assert a + input + b + source + (".yaml" + tail) == a + input + b + (source + ".yaml") + tail;
  }

  /**
   * The converter reads back exactly the intended arguments: the verb, the staged
   * plugin, the output file next to the source, the profile and the game, even
   * when the paths contain spaces.
   */
  lemma ArgumentsRoundTrip(tempDir: string, sourcePath: string, sourceFile: string)
    requires NoQuote(tempDir) && NoQuote(sourcePath) && NoQuote(sourceFile) && sourceFile != ""
    ensures SplitArguments(Arguments(tempDir, sourcePath, sourceFile))
      == ["serialize", "-i", Combine(tempDir, sourceFile), "-o", Combine(sourcePath, sourceFile) + ".yaml",
          "-p", "Spriggit.yaml", "-g", "SkyrimSE"]
  {
    PathsQuotable(tempDir, sourcePath, sourceFile);
    ArgumentsPieces(tempDir, sourcePath, sourceFile);
    OptionWords();
    ValueWords();
    ScanLinePieces("serialize", "-i", Combine(tempDir, sourceFile), "-o", Combine(sourcePath, sourceFile) + ".yaml",
                   "-p", "Spriggit.yaml", "-g", "SkyrimSE");
  }
}
