# sunday-morning-compiler, modelled in Dafny

This project models the one-file compiler in `src/main.c`. The compiler reads a
program of the form `Program name; Begin 1; 2; End.` and writes a small x86 assembly listing. The listing has:

- a header;
- the label `_start:`;
- one `mov ecx, n` per number;
- the exit sequence.

Syntax errors are handled by panic-mode recovery. Missing symbols are "inserted": an error category is recorded and
nothing is read. Unexpected symbols are "deleted" by `Test`. Every error category sets one bit of a 32-bit word,
and a non-zero word makes the exit status 1 and prints the report.

The modules follow the structure of the program:

- `Symbols` (symbols.dfy): the symbol flags, the character-trait table and the keyword table, as constants and pure
  functions.
- `Errors` (errors.dfy): the error bitset. `Records(e, s)` says that the word `e` records exactly the categories in
  `s`. The report lines and their messages are here too.
- `Lines` (lines.dfy): the reference for one refill of the line buffer (`Refill`). `Lines` is the logical character
  stream that successive refills deliver; each character is marked when it opens an over-long line.
- `Refills` (refills.dfy): the refills of a whole input laid out in advance, and where each buffered line sits in
  the character stream. This is the bookkeeping that ties the line buffer to the stream.
- `Scanner` (scanner.dfy): the reference scanner. `Scan` reads one symbol from a lookahead position of the
  character stream, and `Stream` gives all symbols of an input up to EOF.
- `Parser` (parser.dfy): the reference parser. It has one function per parsing procedure, each from a position in
  the symbol stream to the position reached, the categories recorded and the values loaded. It also has the
  listing, and lemmas that the parser accepts exactly the sentences of the grammar.
- `Driver` (driver.dfy): the compiler itself. The C globals become the fields of one class `Compiler`:
  - the input position;
  - the line buffer `line` (an array), `cc` and `ll`;
  - the lookahead character and symbol;
  - the identifier buffer `id` (an array);
  - `num`;
  - the bitset `errs`;
  - the lines written, `out`.

  The procedures `GetChar`, `GetSymbol`, `Test`, `Expect`, `Expression`, `Block`, `ProgramDeclaration`,
  `SourceFile`, `Error` and `PrintErrors` are methods that update those fields step by step, with the loops of the
  source as `while` loops. Each method is proved against the references:
  - the lookahead character walks along `Start(input)`;
  - the lookahead symbol walks along `Stream(Start(input), 0)`;
  - every parsing method reaches the position, records the categories and writes the lines that its reference
    function gives.

  `Compile` runs the whole pipeline on an input.

Points where the model states what the code does, rather than what one might expect:

- **Overflowing numbers.** When the overflow guard fires, the accumulator is reset to 0 and that digit is dropped.
  Later digits keep accumulating, so `21474836481` reads as 1 (`Scanner.OverflowKeepsAccumulating`).
- **The value emitted.** `Expression` emits `g_num` after reading the next symbol. So `1 2;` emits 2: the value of
  the next symbol when that is also a number, and of the number itself otherwise (`Parser.ExpressionValue`).
- **The `number inserted` branch** of `Expression` runs no `Test`. It cannot be reached from `Block`, which calls
  `Expression` only on a number, so category 12 is never recorded (`Parser.SourceFileF`). Category 2 is never
  recorded either: deletions are category 11.
- **The report** lists categories 1..11 only, as the loop at `src/main.c:106` does.
- **Characters without traits.** EOF and bytes above 127, which the C code looks up outside the trait table, are
  modelled as having no traits.
- **Keyword comparison.** `strcmp` is modelled as equality of the whole texts.
- **Refilling on whitespace.** The refill happens only when the lookahead is the newline that ended the previous
  line or the initial blank. So the assertion at `src/main.c:124` holds: the body of `GetChar` asserts that the
  lookahead is whitespace before each refill, and the verifier proves that assertion.

## Model

| member | source | states |
|---|---|---|
| Symbols.Traits | src/main.c:46-66 | the kind or punctuation symbol of each code: only '.' (46) and ';' (59) carry a symbol; 9..13 and 32 are whitespace, digits and letters carry only their kind bit, and every other code (EOF, bytes above 127 included) has no traits; kind bits never overlap symbol bits |
| Symbols.SymbolOf | src/main.c:194-196 | masking off the kind bits leaves Period exactly for '.', Semicolon exactly for ';' and Nul for every other character, never a kind bit |
| Symbols.KeywordSym | src/main.c:175-178 | the symbol of an identifier text is Begin, End or Program exactly on an exact match of that keyword, and Ident exactly when the text is not in the keyword table |
| Symbols.LowerCaseIsIdent | src/main.c:176 | keyword matching is case-sensitive: "begin", "end" and "PROGRAM" are identifiers |
| Symbols.InUnion | src/main.c:13-15 | a symbol is in the bit-union of two follow sets exactly when it is in one of them |
| Errors.Bit | src/main.c:86 | the bit of category n, `1 << (n-1)`; Errors.BitSingle states what it is |
| Errors.BitSingle | src/main.c:86 | the bit of a category is a single bit, shared with no other category |
| Errors.Has | src/main.c:107 | the test of bit n-1; Errors.Record and Errors.SetBitMeets state how it answers after each recording |
| Errors.Messages | src/main.c:94-102 | the message of each category 0..12, in the order of the C table |
| Errors.Cleared | src/main.c:78 | the initial word 0 records no category |
| Errors.SetBitMeets | src/main.c:86 | after setting bit n-1, bit m-1 is set exactly when it was set before or m == n |
| Errors.RecordKeepsUnused | src/main.c:86 | recording one of the categories 1..12 never sets a bit above bit 11 |
| Errors.Record | src/main.c:86 | setting bit n-1 of a word that records set s gives a word that records exactly s + {n} |
| Errors.RecordAgain | src/main.c:86 | recording a category already recorded leaves the word unchanged, so `Error` is idempotent |
| Errors.NoneRecorded | src/main.c:303 | the word is 0 exactly when no category is recorded |
| Lines.FillLen | src/main.c:127-130 | the fill loop stores at most 80 bytes and no newline, and stops before a newline only at the 80th byte or at the end of the input |
| Lines.Refill | src/main.c:123-143 | one refill buffers at most 80 characters, ends the line with a newline or EOF, and consumes input, at least one byte when it ends with a newline |
| Lines.RefillSplits | src/main.c:128-137 | category 1 exactly when 80 characters are followed by one that is neither a newline nor EOF; the overflowing character is the first of the next refill; a line ended by a newline consumes it and nothing more; a line ended by EOF holds the rest of the input |
| Lines.LinesWellEnded | src/main.c:139-141 | the characters all refills deliver end with one EOF and hold no EOF before it |
| Lines.TerminatorOverrun | src/main.c:141-142 | the NUL after the line is written at index 81 or less, and at index 81, past the end of the 81-slot `g_line`, exactly when the line holds 80 characters |
| Lines.EightyCharacterLine | src/main.c:141-142 | a line of 80 letters puts its NUL at index 81 |
| Lines.OverflowLosesCharacter | src/main.c:135 | for a named source file, where `ungetc` pushes onto standard input, each over-long line loses its 81st character |
| Lines.OverflowKeepsCharacter | src/main.c:133-136 | with the pushed-back character read again, an over-long line loses nothing, and the next refill starts with that character |
| Scanner.ScanLex | src/main.c:159-191 | reading a symbol records category 1 exactly when an over-long line was opened among the characters skipped as whitespace or consumed by the symbol, and category 9 exactly when the overflow guard fired on its digits |
| Scanner.WhiteEnd | src/main.c:159-161 | the whitespace skip stops at the first character after the lookahead that is not whitespace |
| Scanner.RunEnd | src/main.c:166-172 | the identifier and digit loops stop at the first character without the kinds they accept |
| Scanner.GuardExact | src/main.c:183 | the overflow guard `n > (INT32_MAX - d) / 10` fires exactly when `10 * n + d > INT32_MAX` |
| Scanner.Accum | src/main.c:180-190 | the accumulator of a digit run stays within 0..INT32_MAX |
| Scanner.AccumSnoc | src/main.c:183-188 | each digit either resets the value to 0, recording overflow, when the guard fires, or makes it 10 * n + d |
| Scanner.AccumValue | src/main.c:179-191 | the guard fires within a digit run exactly when the run's decimal value exceeds INT32_MAX; otherwise the accumulator holds that value |
| Scanner.OverflowKeepsAccumulating | src/main.c:183-188 | `21474836481` reads as 1 with overflow recorded: digits after the one that tripped the guard accumulate again |
| Scanner.Scan | src/main.c:152-199 | after skipping whitespace, the symbol is a word exactly at a letter, Number exactly at a digit and Eof exactly at EOF; overflow only for numbers; every symbol other than Eof consumes at least one character |
| Scanner.Stream | src/main.c:157 | the symbols of an input end with Eof, have no Eof before it, and are all symbols |
| Scanner.ScanWord | src/main.c:163-178 | an identifier is the maximal letter/digit run; its first 10 characters are kept and decide the symbol, a keyword's on an exact match and Ident otherwise |
| Scanner.ScanNumber | src/main.c:179-191 | a number is the maximal digit run, its value lies in 0..INT32_MAX, category 9 exactly when the decimal value exceeds INT32_MAX, and otherwise that value |
| Scanner.ScanEnd | src/main.c:192-193 | at EOF the scanner stops on the EOF itself, the last character of the stream |
| Scanner.ScanSingle | src/main.c:194-197 | any other character is one symbol, '.', ';' or Nul, and is consumed |
| Parser.TestF | src/main.c:203-210 | synchronisation stops at a symbol of the follow set, records only 11 and the categories of the symbols read, and writes nothing |
| Parser.TestDeletes | src/main.c:207-209 | a lookahead outside the follow set is deleted: 11, then the categories of reading the next symbol |
| Parser.TestSkips | src/main.c:203-210 | every symbol passed is outside the follow set, and 11 is recorded exactly when some symbol was deleted |
| Parser.TestStays | src/main.c:207 | at a symbol of the follow set nothing is deleted and nothing recorded |
| Parser.TestNoDelete | src/main.c:207-209 | synchronisation that records no 11 deleted nothing |
| Parser.ExpectF | src/main.c:213-221 | an expectation never moves back, writes nothing and records only its own category or the categories of reading the next symbol |
| Parser.ExpectMatches | src/main.c:216-217 | the expected symbol is accepted and the next symbol read: only that symbol's categories are recorded |
| Parser.ExpectInserts | src/main.c:218-220 | any other symbol records just the expectation's own category, consumes nothing and writes nothing |
| Parser.ExpectNoInsert | src/main.c:216-220 | an expectation that records no insertion met the expected symbol and advanced |
| Parser.ExpressionF | src/main.c:224-235 | an expression ends at a symbol of its follow set and loads at most one value; starting at a number it loads exactly one and records no 12 |
| Parser.ExpressionAdvances | src/main.c:227-229 | an expression that starts at a number consumes it |
| Parser.ExpressionValue | src/main.c:228-230 | an expression that starts at a number loads exactly one value: the next symbol's value when that is a number too, the number's own value otherwise |
| Parser.ExpressionLoads | src/main.c:228-234 | an expression loads a value exactly when it records no 12 |
| Parser.BlockLoopF | src/main.c:243-250 | the block loop stops at a symbol that is not a number but End or in the follow set |
| Parser.BlockF | src/main.c:237-253 | a block ends at a symbol of its follow set and records only 1, 5, 6, 7, 9 and 11 |
| Parser.ProgramDeclarationF | src/main.c:255-263 | the declaration ends at a symbol of its follow set, writes nothing and records only 1, 3, 4, 5, 9 and 11 |
| Parser.ProgramTextF | src/main.c:266-277 | the program text up to the "." records only 1, 3..9 and 11 |
| Parser.SourceFileF | src/main.c:266-287 | the whole compilation never records 2 or 12 |
| Parser.TrailingOnly | src/main.c:278-280 | category 10 is recorded exactly when a symbol other than EOF follows the final "." |
| Parser.LoadLinesEach | src/main.c:230 | one `mov ecx` line per value, in the order of the values |
| Parser.LoadLinesAppend | src/main.c:230 | the load lines of two runs of values are the lines of the first, then those of the second |
| Parser.ListingLines | src/main.c:268-286 | the listing is the header, `_start:`, one load per value and the exit sequence last |
| Parser.ProgramDeclarationAccepts | src/main.c:255-263 | on a sentence the declaration consumes `Program name ;` with no syntax error |
| Parser.ExpressionAccepts | src/main.c:224-235 | at `number ;` an expression consumes the number and loads its value |
| Parser.BlockLoopAccepts | src/main.c:243-250 | on `number ;` pairs followed by End the loop consumes them all and loads their numbers in order |
| Parser.BlockAccepts | src/main.c:237-253 | on `Begin` pairs `End` a block consumes all of it with no syntax error |
| Parser.BlockLoads | src/main.c:237-253 | such a block loads the numbers of its pairs in order |
| Parser.ProgramTextAccepts | src/main.c:266-277 | on a sentence the program text reaches the final EOF with no syntax error |
| Parser.ProgramTextLoads | src/main.c:266-277 | on a sentence the program text loads the numbers of the block in order |
| Parser.SourceFileAccepts | src/main.c:266-287 | a sentence compiles with no syntax error and loads its numbers in order |
| Parser.ProgramDeclarationOnly | src/main.c:255-263 | a declaration with no syntax error is `Program name ;` |
| Parser.ExpressionOnly | src/main.c:224-235 | an expression at a number that deletes nothing consumes just the number |
| Parser.BlockLoopOnly | src/main.c:243-250 | a block loop with no syntax error consumed `number ;` pairs only |
| Parser.BlockBeginOnly | src/main.c:241-242 | a block with no syntax error starts with Begin |
| Parser.BlockPairsOnly | src/main.c:243-250 | a block with no syntax error continues with pairs only |
| Parser.BlockEndOnly | src/main.c:251-252 | a block with no syntax error ends with End right after its loop |
| Parser.ProgramTextOnly | src/main.c:266-277 | a program text with no syntax error has the shape of a sentence up to the "." |
| Parser.SourceFileOnly | src/main.c:266-287 | a stream compiled with no syntax error is a sentence |
| Parser.Recognizes | src/main.c:266-287 | on a scanned stream, no syntax error is recorded exactly when the stream is a sentence of the grammar |
| Parser.StreamIsTokens | src/main.c:157 | every stream the scanner produces ends with Eof and holds it nowhere else, so parsing never reads past it |
| Parser.Member | src/main.c:207 | the bit test `g_sym & fset` is membership of the symbol in the follow set that the mask stands for |
| Parser.SymbolMeets | src/main.c:16-26 | two symbols share a bit exactly when they are equal |
| Parser.AgreesEof | src/main.c:274 | the mask kEof stands for the set {Eof} |
| Parser.AgreesAdd | src/main.c:241 | or-ing a symbol into a mask adds it to the follow set, so every follow set built keeps Eof |
| Parser.AgreesAddTwo | src/main.c:244 | or-ing two symbols into a mask adds both |
| Driver.Start | src/main.c:71 | the character stream starts with the initial lookahead ' ' and ends with a single EOF |
| Driver.Initially | src/main.c:69-78 | before the first symbol is read, the stream, the plan of refills and the symbol stream agree with an empty buffer |
| Driver.Compiler.constructor | src/main.c:69-78 | the initial state: lookahead ' ', no symbol read, empty buffer, no error, nothing written |
| Driver.Compiler.ReadByte | src/main.c:128 | `fgetc` returns the next byte and advances, or EOF at the end of the input |
| Driver.Compiler.PrintErrors | src/main.c:89-111 | the report lists each recorded category in 1..11 once, in ascending order, with its message, and nothing else |
| Driver.Compiler.Error | src/main.c:81-87 | sets exactly bit n-1 and adds n to the recorded categories |
| Driver.Compiler.Write | src/main.c:269-283 | each write to `g_dest` appends one line to the listing and changes nothing else; the load of `src/main.c:230` goes through it as well |
| Driver.Compiler.FillLoop | src/main.c:127-130 | stores the bytes the reference fill loop stores, reads one byte past them and returns it |
| Driver.Compiler.CheckLength | src/main.c:132-137 | an 81st character that is neither a newline nor EOF records 1, is pushed back and replaced by a newline |
| Driver.Compiler.EndLine | src/main.c:139-143 | appends the newline or EOF after the stored characters and resets `g_cc`; the NUL written after them lies inside the 82-slot buffer, since every array index is checked |
| Driver.Compiler.LoadLine | src/main.c:127-137 | the fill loop then the length check: the bytes stored, the character read and the character kept |
| Driver.Compiler.FillLine | src/main.c:123-143 | the buffer holds the line of the reference refill, `g_cc` = 0, `g_ll` at most 81, the last character a newline or EOF, and 1 recorded exactly on overflow |
| Driver.Compiler.Refresh | src/main.c:123-144 | the empty buffer is refilled with the next line of the plan, the lookahead left as it was |
| Driver.Compiler.NextChar | src/main.c:146-147 | the lookahead becomes the next character of the stream |
| Driver.Compiler.GetChar | src/main.c:114-148 | the lookahead becomes the next character of the stream, refilling at the end of a line, and 1 is recorded exactly when that character opens an over-long line |
| Driver.Compiler.SkipWhite | src/main.c:159-161 | the lookahead becomes the first character that is not whitespace, per the reference |
| Driver.Compiler.ReadWord | src/main.c:163-173 | consumes the whole letter/digit run and leaves its first 10 characters, NUL-terminated, in `g_id` |
| Driver.Compiler.Keep | src/main.c:167-170 | stores the lookahead unless 10 characters are already kept |
| Driver.Compiler.ReadNumber | src/main.c:179-190 | consumes the digit run and leaves the reference accumulator in `g_num`, recording 9 exactly on overflow |
| Driver.Compiler.Accumulate | src/main.c:182-188 | one guarded step of the accumulator |
| Driver.Compiler.ReadSymbol | src/main.c:163-178 | the identifier or keyword read is the reference scanner's symbol, keyword table searched in order |
| Driver.Compiler.ReadNumeral | src/main.c:179-191 | the number read is the reference scanner's symbol with its value |
| Driver.Compiler.ReadSingle | src/main.c:194-197 | the single-character symbol read is the reference scanner's |
| Driver.Compiler.ReadToken | src/main.c:159-198 | the symbol read is the next of the stream, with its categories and value, and the lookahead ends where the next symbol is scanned from |
| Driver.Compiler.GetSymbol | src/main.c:150-199 | the lookahead symbol becomes the next symbol of the stream, its categories are recorded, and `g_num` changes only when a number is read |
| Driver.Compiler.Test | src/main.c:201-210 | reaches the position and records the categories of the reference synchronisation |
| Driver.Compiler.Delete | src/main.c:207-209 | one deletion: 11, then the next symbol read, keeping the synchronisation invariant |
| Driver.Compiler.Expect | src/main.c:212-221 | advances iff the lookahead is the expected symbol, otherwise records the category and leaves the lookahead |
| Driver.Compiler.Expression | src/main.c:223-235 | reaches the position, records the categories and writes exactly the load lines of the reference expression |
| Driver.Compiler.Loop | src/main.c:243-250 | the block loop reaches the position, records the categories and writes the load lines of its reference |
| Driver.Compiler.Block | src/main.c:237-253 | reaches the position, records the categories and writes the load lines of the reference block |
| Driver.Compiler.ProgramDeclaration | src/main.c:255-263 | reaches the position and records the categories of the reference declaration, writing nothing |
| Driver.Compiler.CheckEnd | src/main.c:278-280 | records 10 exactly when the lookahead after the "." is not Eof |
| Driver.Compiler.ProgramText | src/main.c:266-277 | writes the header, then `_start:` after the declaration, then the block's load lines, and records the categories of the reference text |
| Driver.Compiler.SourceFile | src/main.c:265-287 | records exactly the categories of the reference compilation and writes exactly its listing |
| Driver.Compile | src/main.c:289-309 | the listing is the reference listing of the scanned input, the status is 1 exactly when a category was recorded and 0 otherwise, and on failure the report lists the recorded categories 1..11 in order |

## Left out

- `main` (`src/main.c:311-333`). Argument handling, `fopen`, `fclose` and `perror` are file I/O. `Compile` takes
  the input as a byte sequence.
- The text written to `stderr`:
  - the echoed line and the caret at column `g_cc-1` in `Error`;
  - the heading and the column widths of `PrintErrors`.

  The model keeps the bitset, and the report as data: code and message.
- The assembler text. The listing is a sequence of abstract lines: `Header`, `StartLabel`, `LoadEcx(n)` and
  `ExitSeq`.
- Real `FILE` streams. `fgetc` reads from a byte sequence. `ungetc` is modelled as a one-character pushback that the
  next refill reads first, which is what happens when the source is standard input. What happens with a named file
  is under "## Findings".
- The C `assert` calls. They become preconditions: `GetChar` requires a lookahead other than EOF, `GetSymbol`
  requires a lookahead symbol other than Eof, and `Test` requires Eof in the follow set.
- Driver.Compiler.GetChar: the refill assertion at `src/main.c:124` is proved as an `assert` in the method body.
  It is not part of the method's contract.
- Out-of-bounds lookups of `g_ch_traits` for EOF and for bytes above 127 are not reproduced: such characters have
  no traits.
- The element type of the line buffer. The C `g_line` is an array of `char`, and the model's buffer holds the
  `int` that was stored, so the model reads back every byte unchanged. A C compiler with signed `char` reads a
  stored byte 0xFF back as -1, which is `EOF`. So for `Program x; Begin End.` followed by the byte 0xFF, the C
  scanner ends the input at that byte, reads `kEof` and records no category 10. The model scans 0xFF as a `Nul`
  symbol and records 10. Bytes 0x80..0xFE read back negative in C and index `g_ch_traits` out of bounds; the model
  gives them no traits, as above.

## Findings

| source | as written | input that shows it | evidently intended | confidence | as-written member | corrected member |
|---|---|---|---|---|---|---|
| src/main.c:75 | `g_line` has 81 slots, but after an 80-character line `g_line[g_ll++] = ch` writes index 80 and `g_line[g_ll] = 0` writes index 81 | a line of 80 letters followed by a newline | a buffer of 82 slots: 80 characters, the newline or EOF, and the NUL | not executed | Lines.TerminatorOverrun | Driver.Compiler.EndLine |
| src/main.c:135 | the overflowing character is pushed back with `ungetc(ch, stdin)`, but `fgetc` reads `g_src`; compiling a named file, the 81st character of every over-long line is lost | a named file holding 81 letters on one line | push the character back onto `g_src`, so that the next refill reads it first | not executed | Lines.OverflowLosesCharacter | Lines.OverflowKeepsCharacter |
