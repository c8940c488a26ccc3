/** The AI-fix editor's file codec (diff.ts) and what saving edits does with it (AiFixPanel.tsx). */
module EditorCodec {
  import opened Prelude
  import opened Utf8
  import opened Base64

  function EncodeContent(text: string): string {
    Btoa(Encode(text))
  }

  /** A failed atob reads as the empty text. */
  function DecodeContent(b64: string): string {
    var bytes := Atob(b64);
    if bytes.None? then "" else DecodeText(bytes.value)
  }

  /** A string every character of which stands for one byte, as btoa takes and atob returns it. */
  predicate IsBinary(s: string) {
    forall c :: c in s ==> c as int < 256
  }

  function CodeOf(c: char): Byte
    requires c as int < 256
  {
    c as int
  }

  function CharCodes(binary: string): seq<Byte>
    requires IsBinary(binary)
  {
    if binary == [] then []
    else
      assert binary[0] in binary && forall c :: c in binary[1..] ==> c in binary;
      [CodeOf(binary[0])] + CharCodes(binary[1..])
  }

  lemma {:induction false} CharCodesAppend(binary: string, c: char)
    requires IsBinary(binary) && c as int < 256
    ensures IsBinary(binary + [c]) && CharCodes(binary + [c]) == CharCodes(binary) + [CodeOf(c)]
    decreases |binary|
  {
    if binary == [] {
      assert (binary + [c])[1..] == [];
    } else {
      assert binary[0] in binary && forall x :: x in binary[1..] ==> x in binary;
      assert (binary + [c])[1..] == binary[1..] + [c];
      CharCodesAppend(binary[1..], c);
    }
  }

  /** encodeContent turns the bytes into characters one by one. */
  method BuildContent(text: string) returns (b64: string)
    ensures b64 == EncodeContent(text)
  {
    var bytes := Encode(text);
    var binary := "";
    for k := 0 to |bytes|
      invariant IsBinary(binary) && CharCodes(binary) == bytes[..k]
    {
      CharCodesAppend(binary, bytes[k] as char);
      binary := binary + [bytes[k] as char];
    }
    assert bytes[..|bytes|] == bytes;
    b64 := Btoa(CharCodes(binary));
  }

  predicate Marked(text: string) {
    text != [] && text[0] == BOM
  }

  /** The editor reads back what it wrote, exactly when the text has no leading byte order mark. */
  lemma ContentReadsBackIff(text: string)
    ensures DecodeContent(EncodeContent(text)) == text <==> !Marked(text)
    ensures DecodeContent(EncodeContent(text)) == if Marked(text) then text[1..] else text
  {
    AtobUndoesBtoa(Encode(text));
    TextDecodesBack(text);
    if Marked(text) {
      assert |text[1..]| < |text|;
    }
  }

  lemma {:induction false} BadCharacterFails(s: string, c: char)
    requires c in s && SextetOf(c).None?
    ensures Sextets(s) == None
    decreases |s|
  {
    if s[0] != c {
      BadCharacterFails(s[1..], c);
    }
  }

  lemma {:induction false} SpacesOnlyAreSkipped(s: string, c: char)
    requires c in s && !IsSpace(c)
    ensures c in NoSpaces(s)
    decreases |s|
  {
    if s[0] != c {
      SpacesOnlyAreSkipped(s[1..], c);
    }
  }

  /** Content that is not base64 at all reads as the empty text. */
  lemma BadContentReadsEmpty(b64: string, c: char)
    requires c in b64 && SextetOf(c).None? && !IsSpace(c) && c != '='
    ensures DecodeContent(b64) == ""
  {
    var data := NoSpaces(b64);
    SpacesOnlyAreSkipped(b64, c);
    assert c in StripPadding(data) by {
      var k :| 0 <= k < |data| && data[k] == c;
      assert k < |StripPadding(data)| && StripPadding(data)[k] == c;
    }
    BadCharacterFails(StripPadding(data), c);
  }

  // ----- Saving edits -----

  datatype File = File(path: string, content: string, deleted: bool)

  type Edits = map<string, string>

  predicate Edited(f: File, edits: Edits) {
    !f.deleted && f.path in edits
  }

  predicate IsDirty(f: File, edits: Edits) {
    Edited(f, edits) && edits[f.path] != DecodeContent(f.content)
  }

  function DirtyPaths(files: seq<File>, edits: Edits): seq<string> {
    if files == [] then []
    else if IsDirty(files[0], edits) then [files[0].path] + DirtyPaths(files[1..], edits)
    else DirtyPaths(files[1..], edits)
  }

  function SavedFile(f: File, edits: Edits): File {
    if Edited(f, edits) then f.(content := EncodeContent(edits[f.path])) else f
  }

  function SavedFiles(files: seq<File>, edits: Edits): seq<File> {
    seq(|files|, i requires 0 <= i < |files| => SavedFile(files[i], edits))
  }

  /** The panel; `saving` is an upload under way, during which the Save button is disabled but the editor is
      not. */
  datatype Panel = Panel(files: Option<seq<File>>, edits: Edits, saving: Option<seq<File>>)

  function Typed(p: Panel, path: string, text: string): Panel {
    p.(edits := p.edits[path := text])
  }

  function SaveBegun(p: Panel): Panel {
    if p.saving.Some? || p.files.None? || DirtyPaths(p.files.value, p.edits) == [] then p
    else p.(saving := Some(SavedFiles(p.files.value, p.edits)))
  }

  /** `ok` tells whether the server took the files. */
  function SaveFinished(p: Panel, ok: bool): Panel {
    if p.saving.Some? && ok then Panel(if p.files.Some? then p.saving else None, map[], None)
    else p.(saving := None)
  }

  class FixPanel {
    var files: Option<seq<File>>
    var edits: Edits
    var saving: Option<seq<File>>

    ghost function Model(): Panel
      reads this
    {
      Panel(files, edits, saving)
    }

    constructor (files: seq<File>)
      ensures Model() == Panel(Some(files), map[], None)
    {
      this.files, edits, saving := Some(files), map[], None;
    }

    method Type(path: string, text: string)
      modifies this`edits
      ensures Model() == Typed(old(Model()), path, text)
    {
      edits := edits[path := text];
    }

    method BeginSave()
      modifies this`saving
      ensures Model() == SaveBegun(old(Model()))
    {
      if saving.Some? || files.None? || DirtyPaths(files.value, edits) == [] {
        return;
      }
      saving := Some(SavedFiles(files.value, edits));
    }

    method FinishSave(ok: bool)
      modifies this
      ensures Model() == SaveFinished(old(Model()), ok)
    {
      if saving.Some? && ok {
        if files.Some? {
          files := saving;
        }
        edits := map[];
      }
      saving := None;
    }
  }

  /** After a save each edited file decodes to what the editor showed, unless that led with a byte order
      mark; files nobody edited, and deleted ones, are unchanged. */
  lemma SaveIsFaithful(files: seq<File>, edits: Edits, i: int)
    requires 0 <= i < |files|
    ensures var f, g := files[i], SavedFiles(files, edits)[i];
      && g.path == f.path && g.deleted == f.deleted
      && (!Edited(f, edits) ==> g == f)
      && (Edited(f, edits) ==> (DecodeContent(g.content) == edits[f.path] <==> !Marked(edits[f.path])))
  {
    if Edited(files[i], edits) {
      ContentReadsBackIff(edits[files[i].path]);
    }
  }

  lemma {:induction false} NoDirtyPathsMeans(files: seq<File>, edits: Edits)
    ensures DirtyPaths(files, edits) == [] <==> forall f :: f in files ==> !IsDirty(f, edits)
    decreases |files|
  {
    if files != [] {
      NoDirtyPathsMeans(files[1..], edits);
      assert files == [files[0]] + files[1..];
    }
  }

  /** The dirty paths are those of the dirty files, in their order. */
  lemma {:induction false} DirtyPathsAre(files: seq<File>, more: seq<File>, edits: Edits)
    ensures DirtyPaths(files + more, edits) == DirtyPaths(files, edits) + DirtyPaths(more, edits)
    ensures forall f :: DirtyPaths([f], edits) ==
              if !f.deleted && f.path in edits && edits[f.path] != DecodeContent(f.content) then [f.path] else []
    decreases |files|
  {
    if files == [] {
      assert files + more == more;
    } else {
      assert (files + more)[1..] == files[1..] + more;
      DirtyPathsAre(files[1..], more, edits);
    }
  }

  /** Nothing is left dirty by a save, even against the edits just made, exactly when no edit of a live
      file leads with a byte order mark. */
  lemma SaveLeavesNothingDirtyIff(files: seq<File>, edits: Edits)
    ensures DirtyPaths(SavedFiles(files, edits), edits) == [] <==>
            forall f :: f in files && Edited(f, edits) ==> !Marked(edits[f.path])
    ensures DirtyPaths(SavedFiles(files, edits), map[]) == []
  {
    var saved := SavedFiles(files, edits);
    NoDirtyPathsMeans(saved, edits);
    NoDirtyPathsMeans(saved, map[]);
    forall i | 0 <= i < |files|
      ensures IsDirty(saved[i], edits) <==> Edited(files[i], edits) && Marked(edits[files[i].path])
    {
      SaveIsFaithful(files, edits, i);
    }
    forall f | f in files
      ensures Edited(f, edits) && Marked(edits[f.path]) ==> exists g :: g in saved && IsDirty(g, edits)
    {
      var i :| 0 <= i < |files| && files[i] == f;
      assert saved[i] in saved;
    }
  }

  /** What the editor shows for a file. */
  function Shown(f: File, edits: Edits): string {
    if f.path in edits then edits[f.path] else DecodeContent(f.content)
  }

  datatype Keystrokes = Keystrokes(path: string, text: string)

  function TypedAll(p: Panel, typed: seq<Keystrokes>): Panel
    decreases |typed|
  {
    if typed == [] then p else TypedAll(Typed(p, typed[0].path, typed[0].text), typed[1..])
  }

  function LastTyped(typed: seq<Keystrokes>, path: string): Option<string> {
    if typed == [] then None
    else if typed[|typed| - 1].path == path then Some(typed[|typed| - 1].text)
    else LastTyped(typed[..|typed| - 1], path)
  }

  lemma {:induction false} TypingShows(p: Panel, typed: seq<Keystrokes>, f: File)
    ensures var q := TypedAll(p, typed);
      && q.files == p.files && q.saving == p.saving
      && Shown(f, q.edits) == match LastTyped(typed, f.path) case None => Shown(f, p.edits) case Some(text) => text
    decreases |typed|
  {
    if typed != [] {
      TypingShows(Typed(p, typed[0].path, typed[0].text), typed[1..], f);
      LastTypedOf(typed, f.path);
    }
  }

  lemma {:induction false} LastTypedOf(typed: seq<Keystrokes>, path: string)
    requires typed != []
    ensures LastTyped(typed, path) ==
      match LastTyped(typed[1..], path)
      case Some(text) => Some(text)
      case None => if typed[0].path == path then Some(typed[0].text) else None
    decreases |typed|
  {
    if |typed| == 1 {
      assert typed[..0] == [] && typed[1..] == [];
    } else {
      assert typed[1..][..|typed[1..]| - 1] == typed[..|typed| - 1][1..];
      LastTypedOf(typed[..|typed| - 1], path);
    }
  }

  /** What a save stores for a live file and the editor then shows: the text on screen when the save began,
      less a byte order mark an edit leads with. */
  function Stored(f: File, edits: Edits): string {
    if f.path in edits && Marked(edits[f.path]) then edits[f.path][1..] else Shown(f, edits)
  }

  /** From the press of Save to its success, with any typing in between: the panel ends up clean, each live
      file showing what was on screen when the save began. What is on screen at the end survives exactly if it
      was not typed since and led with no mark, or equals what was stored; any other text typed while the
      save was under way is lost. */
  lemma SaveDropsTyping(p: Panel, typed: seq<Keystrokes>, i: int)
    requires p.files.Some? && p.saving.None? && DirtyPaths(p.files.value, p.edits) != []
    requires 0 <= i < |p.files.value| && !p.files.value[i].deleted
    ensures var f, before := p.files.value[i], TypedAll(SaveBegun(p), typed);
            var after := SaveFinished(before, true);
      && after.files.Some? && |after.files.value| == |p.files.value| && after.edits == map[] && after.saving == None
      && Shown(after.files.value[i], after.edits) == Stored(f, p.edits)
      && (Shown(after.files.value[i], after.edits) == Shown(f, before.edits) <==>
            match LastTyped(typed, f.path)
            case None => !(f.path in p.edits && Marked(p.edits[f.path]))
            case Some(text) => text == Stored(f, p.edits))
  {
    var f := p.files.value[i];
    TypingShows(SaveBegun(p), typed, f);
    if f.path in p.edits {
      ContentReadsBackIff(p.edits[f.path]);
      if Marked(p.edits[f.path]) {
        assert |p.edits[f.path][1..]| < |p.edits[f.path]|;
      }
    }
  }

  /** A save uploads exactly when some live file shows something else than is stored; what it uploads is what is
      then stored, and a second press meanwhile changes nothing. */
  lemma SavesWhenDirty(p: Panel)
    requires p.files.Some? && p.saving.None?
    ensures SaveBegun(p).saving.Some? <==> exists f :: f in p.files.value && !f.deleted && Shown(f, p.edits) != DecodeContent(f.content)
    ensures SaveBegun(SaveBegun(p)) == SaveBegun(p)
    ensures SaveBegun(p).saving.Some? ==> SaveFinished(SaveBegun(p), true).files == SaveBegun(p).saving
  {
    NoDirtyPathsMeans(p.files.value, p.edits);
    if f :| f in p.files.value && IsDirty(f, p.edits) {
      assert Shown(f, p.edits) != DecodeContent(f.content);
    }
    forall f | f in p.files.value && !f.deleted && Shown(f, p.edits) != DecodeContent(f.content)
      ensures IsDirty(f, p.edits)
    {
    }
  }

  /** A save the server refuses loses nothing. */
  lemma FailedSaveKeepsTyping(p: Panel, typed: seq<Keystrokes>, f: File)
    ensures var before := TypedAll(SaveBegun(p), typed);
            var after := SaveFinished(before, false);
            after.files == p.files && Shown(f, after.edits) == Shown(f, before.edits)
  {
    TypingShows(SaveBegun(p), typed, f);
  }

  lemma LoneByteReadsAsReplacement()
    ensures Atob("/w==") == Some([255]) && DecodeContent("/w==") == [REPLACEMENT]
  {
    assert StripPadding(NoSpaces("/w==")) == "/w";
    CharsReadBack([63, 48]);
    assert Chars([48]) == "w" && Chars([63, 48]) == ['/'] + "w" == "/w";
    assert Decode([255]) == [REPLACEMENT];
  }

  /** Which files a save leaves alone though they were opened and typed back to what they showed (and so are
      not dirty): exactly those whose content is the encoding of a text without a leading mark. */
  lemma UndirtyKeptIff(f: File, edits: Edits)
    requires Edited(f, edits) && !IsDirty(f, edits)
    ensures SavedFile(f, edits) == f <==> exists text :: f.content == EncodeContent(text) && !Marked(text)
  {
    var text := DecodeContent(f.content);
    if SavedFile(f, edits) == f {
      assert f.content == EncodeContent(text);
      ContentReadsBackIff(text);
    }
    forall t | f.content == EncodeContent(t) && !Marked(t)
      ensures SavedFile(f, edits) == f
    {
      ContentReadsBackIff(t);
    }
  }

  /** Such a file is rewritten by saving another one: here a byte that is not UTF-8 is replaced for good. */
  lemma UndirtyFileIsRewritten()
    ensures var f := File("a", "/w==", false);
            var edits: Edits := map["a" := [REPLACEMENT]];
            Edited(f, edits) && !IsDirty(f, edits) && SavedFile(f, edits) != f
  {
    LoneByteReadsAsReplacement();
    AtobUndoesBtoa(Encode([REPLACEMENT]));
    assert Encode([REPLACEMENT]) == EncodeChar(REPLACEMENT) + [];
    assert |Encode([REPLACEMENT])| >= 3;
  }
}
