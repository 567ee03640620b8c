/**
 * The aarch64 half of the storage tracer: reading the path an openat() call
 * names out of the traced app's memory one 8-byte word at a time, asking
 * the plugin for a replacement, writing the replacement below the app's
 * stack pointer word by word, and pointing the call's x1 register at it.
 */
module TracerMemory {
  import opened Wrappers
  import opened ItemParcel
  import opened StoragePaths

  /** sizeof(long): the unit PTRACE_PEEKTEXT and PTRACE_POKETEXT move. */
  const WORD: nat := 8
  /** limits.h PATH_MAX. */
  const PATH_MAX: nat := 4096
  /** Bytes left untouched below the stack pointer. */
  const RED_ZONE: nat := 128
  /** The openat() syscall number on aarch64. */
  const SYS_OPENAT: int := 56
  const REG_X1: nat := 1
  const REG_X2: nat := 2
  const REG_X8: nat := 8
  const NUL: char := '\0'
  /** A byte of the word PEEKTEXT returns as -1. */
  const ALL_ONES: char := '\U{FF}'

  /** A machine word as its eight bytes. */
  type Word = w: seq<char> | |w| == WORD witness ['\0', '\0', '\0', '\0', '\0', '\0', '\0', '\0']

  /** The traced app's memory from an address on, word by word: None where
   *  PTRACE_PEEKTEXT fails, and it fails past the end. */
  function PeekAt(mem: seq<Option<Word>>, k: nat): Option<Word> {
    if k < |mem| then mem[k] else None
  }

  /** The word reads as the long -1, the value that signals a failed peek. */
  predicate LooksFailed(w: Word) {
    forall i :: 0 <= i < WORD ==> w[i] == ALL_ONES
  }

  /** The bytes of a word copied to dest: up to and including the first NUL. */
  function UpToNul(w: seq<char>): (r: seq<char>)
    ensures |r| <= |w|
    ensures NUL in w ==> r != [] && r[|r| - 1] == NUL && NUL !in r[..|r| - 1]
    ensures NUL !in w ==> r == w
  {
    if w == [] then []
    else if w[0] == NUL then [NUL]
    else
      assert [w[0]] + UpToNul(w[1..]) == [w[0]] + UpToNul(w[1..]);
      [w[0]] + UpToNul(w[1..])
  }

  /** What ReadStringFromPid returns, and the bytes it leaves in dest. */
  datatype ReadOutcome = ReadOutcome(ret: int, bytes: seq<char>)

  /** Reading from the k-th word on: a failed (or -1-valued) peek gives -1;
   *  a word holding a NUL ends the string; any other word is copied whole
   *  and the next one read. */
  function Read(mem: seq<Option<Word>>, k: nat): ReadOutcome
    decreases |mem| - k
  {
    var v := PeekAt(mem, k);
    if v.None? || LooksFailed(v.value) then ReadOutcome(-1, [])
    else if NUL in v.value then ReadOutcome(0, UpToNul(v.value))
    else
      var rest := Read(mem, k + 1);
      ReadOutcome(rest.ret, v.value + rest.bytes)
  }

  /** A successful read ends with the string's one NUL; a failed one holds
   *  no NUL; the result is 0 or -1. */
  lemma {:induction false} ReadShape(mem: seq<Option<Word>>, k: nat)
    ensures Read(mem, k).ret == 0 || Read(mem, k).ret == -1
    ensures var r := Read(mem, k);
            r.ret == 0 ==> r.bytes != [] && r.bytes[|r.bytes| - 1] == NUL && NUL !in r.bytes[..|r.bytes| - 1]
    ensures Read(mem, k).ret == -1 ==> NUL !in Read(mem, k).bytes
    decreases |mem| - k
  {
    var v := PeekAt(mem, k);
    if v.Some? && !LooksFailed(v.value) && NUL !in v.value {
      ReadShape(mem, k + 1);
      var rest := Read(mem, k + 1);
      if rest.ret == 0 {
        assert (v.value + rest.bytes)[..|v.value + rest.bytes| - 1] == v.value + rest.bytes[..|rest.bytes| - 1];
      }
    }
  }

  /** A word whose bytes are all 0xFF is taken for a failed peek, although
   *  the peek succeeded. */
  lemma AllOnesWordReadsAsFailure()
    ensures Read([Some([ALL_ONES, ALL_ONES, ALL_ONES, ALL_ONES, ALL_ONES, ALL_ONES, ALL_ONES, ALL_ONES])], 0).ret == -1
  {
  }

  /** The inner copy loop: the word's bytes up to the first NUL; `i` stops at
   *  the NUL or runs to the end of the word. */
  method CopyWord(w: Word) returns (copied: seq<char>, i: nat)
    ensures copied == UpToNul(w)
    ensures i == WORD <==> NUL !in w
  {
    copied := [];
    i := 0;
    while i < WORD
      invariant 0 <= i <= WORD
      invariant copied == w[..i] && NUL !in w[..i]
    {
      copied := copied + [w[i]];
      if w[i] == NUL {
        UpToNulAt(w, i);
        return;
      }
      assert w[..i + 1] == w[..i] + [w[i]];
      i := i + 1;
    }
    assert w[..i] == w;
  }

  /** UpToNul of a word whose first NUL is at position i. */
  lemma {:induction false} UpToNulAt(w: seq<char>, i: nat)
    requires i < |w| && w[i] == NUL && NUL !in w[..i]
    ensures UpToNul(w) == w[..i + 1]
    decreases i
  {
    if i > 0 {
      assert w[1..][..i - 1] == w[1..i];
      assert NUL !in w[1..][..i - 1] by {
        assert forall c :: c in w[1..i] ==> c in w[..i];
      }
      UpToNulAt(w[1..], i - 1);
      assert w[..i + 1] == [w[0]] + w[1..][..i];
    }
  }

  /** ReadStringFromPid: the do/while over words. */
  method ReadStringFromPid(mem: seq<Option<Word>>) returns (ret: int, dest: seq<char>)
    ensures ReadOutcome(ret, dest) == Read(mem, 0)
  {
    ghost var whole := Read(mem, 0);
    ret := 0;
    dest := [];
    var k: nat := 0;
    var more := true;
    while more
      invariant more ==> k <= |mem| && ret == 0 && whole == ReadOutcome(Read(mem, k).ret, dest + Read(mem, k).bytes)
      invariant !more ==> whole == ReadOutcome(ret, dest)
      decreases if more then |mem| + 1 - k else 0
    {
      var v := PeekAt(mem, k);
      if v.None? || LooksFailed(v.value) {
        ret := -1;
        more := false;
      } else {
        var copied, i := CopyWord(v.value);
        ReadAdvance(mem, k, dest);
        dest := dest + copied;
        k := k + 1;
        more := i == WORD;
      }
    }
  }

  /** One word of the read: a word holding a NUL ends the string with its
   *  bytes up to the NUL; any other word is appended whole and the read
   *  goes on at the next word. */
  lemma ReadAdvance(mem: seq<Option<Word>>, k: nat, dest: seq<char>)
    requires PeekAt(mem, k).Some? && !LooksFailed(PeekAt(mem, k).value)
    ensures var w := PeekAt(mem, k).value;
            NUL in w ==> ReadOutcome(Read(mem, k).ret, dest + Read(mem, k).bytes) == ReadOutcome(0, dest + UpToNul(w))
    ensures var w := PeekAt(mem, k).value;
            NUL !in w ==> ReadOutcome(Read(mem, k).ret, dest + Read(mem, k).bytes) ==
                          ReadOutcome(Read(mem, k + 1).ret, (dest + w) + Read(mem, k + 1).bytes)
  {
  }

  /** The words WriteStringToPid pokes for the C string s (terminator
   *  included) from position pos on, when the previous word held `prev`:
   *  each word takes the next eight bytes, or the rest up to the NUL with
   *  the previous word's bytes left behind it. */
  function WordsFor(s: seq<char>, pos: nat, prev: Word): (ws: seq<Word>)
    requires pos < |s| && NUL !in s[..|s| - 1] && s[|s| - 1] == NUL
    ensures |ws| >= 1
    decreases |s| - pos
  {
    if pos + WORD >= |s| then
      var chunk := s[pos..];
      [chunk + prev[|chunk|..]]
    else
      var w: Word := s[pos..pos + WORD];
      [w] + WordsFor(s, pos + WORD, w)
  }

  /** The first word of WordsFor and what follows it. */
  lemma WordsForHead(s: seq<char>, pos: nat, prev: Word)
    requires pos < |s| && NUL !in s[..|s| - 1] && s[|s| - 1] == NUL
    ensures pos + WORD >= |s| ==> WordsFor(s, pos, prev) == [s[pos..] + prev[|s| - pos..]]
    ensures pos + WORD < |s| ==>
              WordsFor(s, pos, prev)[0] == s[pos..pos + WORD] &&
              WordsFor(s, pos, prev)[1..] == WordsFor(s, pos + WORD, s[pos..pos + WORD])
  {
    if pos + WORD < |s| {
      var w: Word := s[pos..pos + WORD];
      assert ([w] + WordsFor(s, pos + WORD, w))[1..] == WordsFor(s, pos + WORD, w);
    }
  }

  /** The concatenated words begin with the string and its terminator. */
  lemma {:induction false} WordsHoldString(s: seq<char>, pos: nat, prev: Word)
    requires pos < |s| && NUL !in s[..|s| - 1] && s[|s| - 1] == NUL
    ensures var flat := Flatten(WordsFor(s, pos, prev));
            |flat| >= |s| - pos && flat[..|s| - pos] == s[pos..]
    decreases |s| - pos
  {
    if pos + WORD < |s| {
      WordsHoldString(s, pos + WORD, s[pos..pos + WORD]);
      var w: Word := s[pos..pos + WORD];
      var rest := WordsFor(s, pos + WORD, w);
      assert WordsFor(s, pos, prev) == [w] + rest;
      assert Flatten([w] + rest) == w + Flatten(rest) by {
        assert ([w] + rest)[1..] == rest;
      }
      var n := |s| - pos - WORD;
      var tail := Flatten(rest);
      assert tail[..n] == s[pos + WORD..];
      assert (w + tail)[..|s| - pos] == w + tail[..n];
      assert s[pos..] == w + s[pos + WORD..];
    } else {
      var chunk := s[pos..];
      assert Flatten([chunk + prev[|chunk|..]]) == chunk + prev[|chunk|..] by {
        assert [chunk + prev[|chunk|..]][1..] == [];
      }
    }
  }

  /** The bytes of a sequence of words, in order. */
  function Flatten(ws: seq<Word>): (r: seq<char>)
    ensures |r| == WORD * |ws|
  {
    if ws == [] then [] else ws[0] + Flatten(ws[1..])
  }

  /** One PTRACE_POKETEXT that succeeded. */
  datatype Poke = Poke(address: int, value: Word)

  /** One word per eight bytes still to write, the terminator included. */
  lemma {:induction false} WordsForLength(s: seq<char>, pos: nat, prev: Word)
    requires pos < |s| && NUL !in s[..|s| - 1] && s[|s| - 1] == NUL
    ensures |WordsFor(s, pos, prev)| == (|s| - 1 - pos) / WORD + 1
    decreases |s| - pos
  {
    if pos + WORD < |s| {
      WordsForLength(s, pos + WORD, s[pos..pos + WORD]);
    }
  }

  /** WriteStringToPid writes |str| / 8 + 1 words: the last one holds the
   *  terminator. */
  lemma WordCount(str: seq<char>, prev: Word)
    requires NUL !in str
    ensures |WordsFor(str + [NUL], 0, prev)| == |str| / WORD + 1
  {
    assert (str + [NUL])[..|str + [NUL]| - 1] == str;
    WordsForLength(str + [NUL], 0, prev);
  }

  /** The inner fill loop: copies the next bytes of s into val up to and
   *  including the NUL, at most a word's worth, keeping the rest of val. */
  method FillWord(s: seq<char>, pos: nat, val: Word) returns (next: Word, c: char, newPos: nat)
    requires pos < |s| && NUL !in s[..|s| - 1] && s[|s| - 1] == NUL
    ensures pos + WORD >= |s| ==> next == s[pos..] + val[|s| - pos..] && c == NUL
    ensures pos + WORD < |s| ==> next == s[pos..pos + WORD] && c != NUL && newPos == pos + WORD
  {
    var buf: seq<char> := val;
    var i := 0;
    while true
      invariant 0 <= i < WORD && pos + i < |s|
      invariant buf == s[pos..pos + i] + val[i..]
      decreases WORD - i
    {
      c := s[pos + i];
      FillStep(s, pos, val, i);
      buf := buf[i := c];
      if c == NUL {
        OnlyNulAtEnd(s, pos + i);
        assert s[pos..] == s[pos..pos + i + 1];
        return buf, c, pos + i;
      }
      if i + 1 == WORD {
        assert val[i + 1..] == [];
        return buf, c, pos + WORD;
      }
      i := i + 1;
    }
  }

  /** Writing the next byte into the buffer extends the copied part. */
  lemma FillStep(s: seq<char>, pos: nat, val: Word, i: nat)
    requires i < WORD && pos + i < |s|
    ensures (s[pos..pos + i] + val[i..])[i := s[pos + i]] == s[pos..pos + i + 1] + val[i + 1..]
  {
  }

  /** The terminator is the only NUL of a C string. */
  lemma OnlyNulAtEnd(s: seq<char>, j: nat)
    requires j < |s| && NUL !in s[..|s| - 1] && s[j] == NUL
    ensures j == |s| - 1
  {
  }

  /** The pokes made so far are the words ws from dest on, one word apart,
   *  each of which succeeded. */
  predicate Poked(pokes: seq<Poke>, ws: seq<Word>, dest: int, pokeOk: nat -> bool)
    requires |pokes| <= |ws|
  {
    forall k :: 0 <= k < |pokes| ==> pokes[k] == Poke(dest + WORD * k, ws[k]) && pokeOk(k)
  }

  /** The words ws poked one after the other from dest on. */
  function PokesAt(dest: int, ws: seq<Word>): (ps: seq<Poke>)
    ensures |ps| == |ws|
  {
    seq(|ws|, k requires 0 <= k < |ws| => Poke(dest + WORD * k, ws[k]))
  }

  /** Once every word is poked, the pokes are exactly PokesAt. */
  lemma PokedAll(pokes: seq<Poke>, ws: seq<Word>, dest: int, pokeOk: nat -> bool)
    requires |pokes| == |ws| && Poked(pokes, ws, dest, pokeOk)
    ensures pokes == PokesAt(dest, ws)
  {
  }

  lemma PokedSnoc(pokes: seq<Poke>, ws: seq<Word>, dest: int, pokeOk: nat -> bool)
    requires |pokes| < |ws| && Poked(pokes, ws, dest, pokeOk) && pokeOk(|pokes|)
    ensures Poked(pokes + [Poke(dest + WORD * |pokes|, ws[|pokes|])], ws, dest, pokeOk)
  {
  }

  /** WriteStringToPid: pokes the words of the C string one after the
   *  other, advancing a word each time, and stops with -1 at the first
   *  poke that fails. */
  method WriteStringToPid(str: seq<char>, dest: int, initial: Word, pokeOk: nat -> bool)
    returns (ret: int, pokes: seq<Poke>)
    requires NUL !in str
    ensures var ws := WordsFor(str + [NUL], 0, initial);
            |pokes| <= |ws| && Poked(pokes, ws, dest, pokeOk) &&
            (ret == 0 <==> |pokes| == |ws|) &&
            (ret != 0 ==> ret == -1 && !pokeOk(|pokes|))
  {
    var s := str + [NUL];
    assert s[..|s| - 1] == str;
    ghost var ws := WordsFor(s, 0, initial);
    var val := initial;
    var pos: nat := 0;
    pokes := [];
    var more := true;
    while more
      invariant pos < |s|
      invariant more ==> |pokes| < |ws| && ws[|pokes|..] == WordsFor(s, pos, val)
      invariant !more ==> |pokes| == |ws|
      invariant |pokes| <= |ws| && Poked(pokes, ws, dest, pokeOk)
      decreases if more then |s| - pos else 0
    {
      var next, c, newPos := FillWord(s, pos, val);
      var n := |pokes|;
      if !pokeOk(n) {
        return -1, pokes;
      }
      WordsForHead(s, pos, val);
      assert ws[n] == ws[n..][0] == next;
      PokedSnoc(pokes, ws, dest, pokeOk);
      pokes := pokes + [Poke(dest + WORD * n, next)];
      if c == NUL {
        more := false;
      } else {
        assert ws[n + 1..] == ws[n..][1..];
        pos := newPos;
        val := next;
      }
    }
    return 0, pokes;
  }

  /** Where the replacement path is written, as in the source: the string's
   *  length plus its terminator, then the red zone, below sp. */
  function PlacementAsWritten(sp: int, len: nat): int {
    sp - (len + 1) - RED_ZONE
  }

  /** Where the replacement path is written here: room for every word
   *  written, then the red zone, below sp. */
  function Placement(sp: int, len: nat): int {
    sp - WORD * (len / WORD + 1) - RED_ZONE
  }

  /** Written at the source's address, the last word spills into the red
   *  zone unless the length is 7 modulo 8; a two-byte path such as "/a"
   *  reaches five bytes into it. */
  lemma PlacementAsWrittenEntersRedZone(sp: int, len: nat)
    ensures PlacementAsWritten(sp, len) + WORD * (len / WORD + 1) <= sp - RED_ZONE <==> len % WORD == 7
    ensures PlacementAsWritten(sp, 2) + WORD * (2 / WORD + 1) == sp - RED_ZONE + 5
  {
  }

  /** At the corrected address the words hold the string and its
   *  terminator and end exactly where the red zone begins. */
  lemma PlacementFitsBelowRedZone(sp: int, len: nat)
    ensures Placement(sp, len) + WORD * (len / WORD + 1) == sp - RED_ZONE
    ensures Placement(sp, len) + (len + 1) <= sp - RED_ZONE
  {
  }

  /** The 31 general registers and the stack pointer. */
  datatype Regs = Regs(x: seq<int>, sp: int)

  /** The call made into the plugin: the path and the open mode as a Java int. */
  datatype PluginRequest = PluginRequest(path: string, mode: Int32)

  /** What ptrace, the JNI calls and the plugin answer during one stop. */
  datatype OpenAnswers = OpenAnswers(
    regs: Regs,                   // PTRACE_GETREGSET
    mem: seq<Option<Word>>,       // the app's memory from the address in x1
    javaPathOk: bool,             // NewStringUTF succeeded
    pluginPath: Option<string>,   // the plugin's replacement, or null
    initial: Word,                // what the write buffer holds before the first word
    pokeOk: nat -> bool,          // PTRACE_POKETEXT of the k-th word succeeds
    setRegsOk: bool)              // PTRACE_SETREGSET succeeded

  /** The registers and replacement are well formed: 31 registers, and a
   *  Java string has no NUL in its UTF-8 form. */
  predicate WellFormed(a: OpenAnswers) {
    |a.regs.x| == 31 && (a.pluginPath.Some? ==> NUL !in a.pluginPath.value)
  }

  /** The C string held by bytes that end in their NUL. */
  function CString(bytes: seq<char>): string {
    if bytes == [] then [] else bytes[..|bytes| - 1]
  }

  /** What one openat() stop leads to: the result, the registers written
   *  back to the app (if any), the words poked and the plugin request. */
  datatype OpenOutcome = OpenOutcome(ret: int, applied: Option<Regs>, pokes: seq<Poke>, request: Option<PluginRequest>)

  /** Every one of the first n pokes succeeds. */
  predicate AllPokesOk(pokeOk: nat -> bool, n: nat) {
    forall k :: 0 <= k < n ==> pokeOk(k)
  }

  /** The path the stop opens: the C string read from the address in x1. */
  function OpenedPath(a: OpenAnswers): string {
    CString(Read(a.mem, 0).bytes)
  }

  /** Every check before the write passes: an openat() stop whose path
   *  reads, is absolute, lies on external storage and converts to a Java
   *  string, and a replacement from the plugin that fits in PATH_MAX. */
  predicate ReachesWrite(a: OpenAnswers)
    requires WellFormed(a)
  {
    var path := OpenedPath(a);
    a.regs.x[REG_X8] == SYS_OPENAT && Read(a.mem, 0).ret == 0 &&
    path != [] && path[0] == '/' && External(path) && a.javaPathOk &&
    a.pluginPath.Some? && |a.pluginPath.value| + 1 <= PATH_MAX
  }

  /** aarch64_tracer_interpose_on_open: a non-openat stop, a relative path,
   *  a path off external storage and a null answer from the plugin leave
   *  the call alone with 0; an unreadable path, a failed string conversion,
   *  an over-long replacement, a failed poke and a failed register update
   *  give -1. Otherwise the replacement is written word by word at sp less
   *  its length with terminator less the red zone, and x1 points at it. */
  method InterposeOnOpen(a: OpenAnswers) returns (o: OpenOutcome)
    requires WellFormed(a)
    ensures a.regs.x[REG_X8] != SYS_OPENAT ==> o == OpenOutcome(0, None, [], None)
    ensures a.regs.x[REG_X8] == SYS_OPENAT ==>
              var read := Read(a.mem, 0);
              var path := OpenedPath(a);
              if read.ret != 0 then o == OpenOutcome(-1, None, [], None)
              else if path == [] || path[0] != '/' || !External(path) then o == OpenOutcome(0, None, [], None)
              else if !a.javaPathOk then o == OpenOutcome(-1, None, [], None)
              else
                o.request == Some(PluginRequest(path, ToInt32(a.regs.x[REG_X2]))) &&
                (a.pluginPath.None? ==> o.ret == 0 && o.applied == None && o.pokes == []) &&
                (a.pluginPath.Some? && |a.pluginPath.value| + 1 > PATH_MAX ==> o.ret == -1 && o.applied == None && o.pokes == [])
    ensures ReachesWrite(a) ==>
              var len := |a.pluginPath.value|;
              var loc := PlacementAsWritten(a.regs.sp, len);
              var ws := WordsFor(a.pluginPath.value + [NUL], 0, a.initial);
              |ws| == len / WORD + 1 &&
              |o.pokes| <= |ws| && Poked(o.pokes, ws, loc, a.pokeOk) &&
              (!AllPokesOk(a.pokeOk, |ws|) ==> o.ret == -1 && o.applied == None && |o.pokes| < |ws| && !a.pokeOk(|o.pokes|)) &&
              (AllPokesOk(a.pokeOk, |ws|) ==> o.pokes == PokesAt(loc, ws)) &&
              (AllPokesOk(a.pokeOk, |ws|) && !a.setRegsOk ==> o.ret == -1 && o.applied == None) &&
              (o.applied.Some? ==> o.applied == Some(a.regs.(x := a.regs.x[REG_X1 := loc])))
    ensures o.ret == 0 && o.applied.Some? <==>
              ReachesWrite(a) && AllPokesOk(a.pokeOk, |a.pluginPath.value| / WORD + 1) && a.setRegsOk
    ensures o.applied.Some? ==> o.ret == 0
    ensures o.ret == 0 || o.ret == -1
  {
    var regs := a.regs;
    if regs.x[REG_X8] != SYS_OPENAT {
      return OpenOutcome(0, None, [], None);
    }
    var ret, pathBuf := ReadStringFromPid(a.mem);
    if ret != 0 {
      return OpenOutcome(-1, None, [], None);
    }
    ReadShape(a.mem, 0);
    var path := CString(pathBuf);
    if path == [] || path[0] != '/' {
      return OpenOutcome(0, None, [], None);
    }
    var external := IsOnExternalStorage(path);
    if !external {
      return OpenOutcome(0, None, [], None);
    }
    if !a.javaPathOk {
      return OpenOutcome(-1, None, [], None);
    }
    var request := PluginRequest(path, ToInt32(regs.x[REG_X2]));
    if a.pluginPath.None? {
      return OpenOutcome(0, None, [], Some(request));
    }
    var newPath := a.pluginPath.value;
    var newPathLen := |newPath| + 1;
    if newPathLen > PATH_MAX {
      return OpenOutcome(-1, None, [], Some(request));
    }
    var location := PlacementAsWritten(regs.sp, |newPath|);
    var written, pokes := WriteStringToPid(newPath, location, a.initial, a.pokeOk);
    WordCount(newPath, a.initial);
    if written < 0 {
      return OpenOutcome(-1, None, pokes, Some(request));
    }
    PokedAll(pokes, WordsFor(newPath + [NUL], 0, a.initial), location, a.pokeOk);
    regs := regs.(x := regs.x[REG_X1 := location]);
    if !a.setRegsOk {
      return OpenOutcome(-1, None, pokes, Some(request));
    }
    return OpenOutcome(0, Some(regs), pokes, Some(request));
  }
}
