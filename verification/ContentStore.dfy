/** The content-addressed stores (`blobs.rs`, `scripts.rs`): files named by the hash of
    their bytes, written to a temporary name and renamed, under any interleaving of
    writers, readers and removers.
 */
module ContentStore {

  import opened Order
  import opened Wrappers

  type Bytes = seq<int>

  type Inode = nat

  type Hash = Bytes -> string

  const MAX_BLOB_BYTES := 256 * 1024 * 1024

  // --- Digests ----------------------------------------------------------------

  predicate HexDigit(c: char) { '0' <= c <= '9' || 'a' <= c <= 'f' }

  predicate IsHex(name: string) { |name| == 64 && forall c | c in name :: HexDigit(c) }

  const PREFIX := "sha256:"

  /** `ScriptDigest::parse`: the digest by its hex half. */
  function Parse(text: string): Option<string> {
    if |text| < |PREFIX| || text[..|PREFIX|] != PREFIX then None
    else
      var hex := text[|PREFIX|..];
      if |hex| == 64 && forall i | 0 <= i < |hex| :: HexDigit(hex[i]) then Some(hex) else None
  }

  /** Parsing accepts exactly what `Display` prints for a digest, and gives it back. */
  lemma ParseIff(text: string, hex: string)
    ensures Parse(text) == Some(hex) <==> text == PREFIX + hex && IsHex(hex)
    ensures Parse(text) == Some(hex) <==>
            text == "sha256:" + hex && |hex| == 64 && forall c | c in hex :: '0' <= c <= '9' || 'a' <= c <= 'f'
  {
    assert PREFIX == "sha256:";
    if text == PREFIX + hex { assert text[..|PREFIX|] == PREFIX && text[|PREFIX|..] == hex; }
    if Parse(text) == Some(hex) {
      assert text == text[..|PREFIX|] + text[|PREFIX|..];
      assert forall c | c in hex :: HexDigit(c);
    }
    if IsHex(hex) { assert forall i | 0 <= i < |hex| :: hex[i] in hex; }
  }

  /** A digest is one path component that leads nowhere else. */
  lemma HexIsAName(hex: string)
    requires IsHex(hex)
    ensures '/' !in hex && '.' !in hex && hex != ""
  {
  }

  /** So whatever text was parsed, the path made from it stays in the store. */
  lemma ParsedIsAName(text: string)
    ensures Parse(text).None? <==> forall hex | IsHex(hex) :: text != PREFIX + hex
    ensures Parse(text).Some? ==> '/' !in Parse(text).value && '.' !in Parse(text).value && text == PREFIX + Parse(text).value
  {
    forall hex ensures Parse(text) == Some(hex) <==> text == PREFIX + hex && IsHex(hex) { ParseIff(text, hex); }
    if Parse(text).Some? { HexIsAName(Parse(text).value); }
  }

  /** The name a writer with this token writes to before it publishes. */
  function Temporary(hex: string, token: string): string { "." + hex + "." + token + ".incoming" }

  lemma TemporaryIsNoDigest(hex: string, token: string)
    ensures !IsHex(Temporary(hex, token))
  {
    assert Temporary(hex, token)[0] == '.';
    assert '.' in Temporary(hex, token);
  }

  lemma TemporaryNamesDiffer(hex: string, token: string, hex': string, token': string)
    requires |hex| == |hex'| && Temporary(hex, token) == Temporary(hex', token')
    ensures hex == hex' && token == token'
  {
    var a, b := Temporary(hex, token), Temporary(hex', token');
    assert a[1..1 + |hex|] == hex && b[1..1 + |hex|] == hex';
    assert |token| == |token'|;
    assert a[2 + |hex|..2 + |hex| + |token|] == token && b[2 + |hex|..2 + |hex| + |token|] == token';
  }

  // --- The directory and its writers ------------------------------------------

  /** Where a `put` has got to: about to write, or with `written` bytes in a file. */
  datatype Writer = Idle | Decided(bytes: Bytes) | Writing(bytes: Bytes, inode: Inode, written: nat)

  /** `names` is the directory, `data` what the files hold. Each writer has a token. */
  datatype State = State(names: map<string, Inode>, data: map<Inode, Bytes>, writers: map<nat, Writer>, next: Inode)

  datatype Step =
    | Begin(w: nat, bytes: Bytes)
    | Opens(w: nat)
    | Writes(w: nat, n: nat)
    | Renames(w: nat)
    | Fails(w: nat)
    | Removes(hex: string)

  type Tokens = nat -> string

  ghost predicate DistinctTokens(token: Tokens) { forall a, b :: token(a) == token(b) ==> a == b }

  ghost predicate Hashes(hash: Hash) { forall b :: IsHex(hash(b)) }

  function At(s: State, w: nat): Writer { if w in s.writers then s.writers[w] else Idle }

  /** `write` at an offset: past the end it leaves zeros. */
  function WriteAt(content: Bytes, at: nat, chunk: Bytes): Bytes {
    if at <= |content| then content[..at] + chunk + (if at + |chunk| <= |content| then content[at + |chunk|..] else [])
    else content + seq(at - |content|, _ => 0) + chunk
  }

  function OnBegin(s: State, w: nat, bytes: Bytes, hash: Hash): State {
    if At(s, w) != Idle || |bytes| > MAX_BLOB_BYTES || hash(bytes) in s.names then s
    else s.(writers := s.writers[w := Decided(bytes)])
  }

  /** Create the temporary file, or empty the one that is there. */
  function OnOpens(s: State, w: nat, token: Tokens, hash: Hash): State {
    if !At(s, w).Decided? then s
    else
      var bytes := At(s, w).bytes;
      var temporary := Temporary(hash(bytes), token(w));
      if temporary in s.names then
        var inode := s.names[temporary];
        s.(data := s.data[inode := []], writers := s.writers[w := Writing(bytes, inode, 0)])
      else
        s.(names := s.names[temporary := s.next], data := s.data[s.next := []],
           writers := s.writers[w := Writing(bytes, s.next, 0)], next := s.next + 1)
  }

  /** The next `n` bytes, or as many as are left. */
  function OnWrites(s: State, w: nat, n: nat): State {
    if !At(s, w).Writing? || At(s, w).inode !in s.data || At(s, w).written > |At(s, w).bytes| then s
    else
      var Writing(bytes, inode, written) := At(s, w);
      var upto := if written + n < |bytes| then written + n else |bytes|;
      s.(data := s.data[inode := WriteAt(s.data[inode], written, bytes[written..upto])],
         writers := s.writers[w := Writing(bytes, inode, upto)])
  }

  /** `rename`, once everything is written. */
  function OnRenames(s: State, w: nat, token: Tokens, hash: Hash): State {
    if !At(s, w).Writing? || At(s, w).written != |At(s, w).bytes| then s
    else
      var hex := hash(At(s, w).bytes);
      var temporary := Temporary(hex, token(w));
      var done := s.(writers := s.writers[w := Idle]);
      if temporary !in s.names then done
      else done.(names := s.names[hex := s.names[temporary]] - {temporary})
  }

  /** A write that fails, or a process that dies: the temporary file stays. */
  function OnFails(s: State, w: nat): State { s.(writers := s.writers[w := Idle]) }

  function OnRemoves(s: State, hex: string): State {
    if IsHex(hex) then s.(names := s.names - {hex}) else s
  }

  function Next(s: State, step: Step, token: Tokens, hash: Hash): State {
    match step
    case Begin(w, bytes) => OnBegin(s, w, bytes, hash)
    case Opens(w) => OnOpens(s, w, token, hash)
    case Writes(w, n) => OnWrites(s, w, n)
    case Renames(w) => OnRenames(s, w, token, hash)
    case Fails(w) => OnFails(s, w)
    case Removes(hex) => OnRemoves(s, hex)
  }

  function After(s: State, steps: seq<Step>, token: Tokens, hash: Hash): State
    decreases |steps|
  {
    if steps == [] then s else After(Next(s, steps[0], token, hash), steps[1..], token, hash)
  }

  /** A writer that fails leaves every name and every byte where they are, its temporary
      file among them; a removal takes one digest's name and nothing else. */
  lemma FailsIs(s: State, w: nat, hex: string, token: Tokens, hash: Hash)
    ensures var t := Next(s, Fails(w), token, hash);
            t.names == s.names && t.data == s.data && At(t, w) == Idle && forall v | v != w :: At(t, v) == At(s, v)
    ensures var t := Next(s, Removes(hex), token, hash);
            && t.data == s.data && t.writers == s.writers
            && forall name :: name in t.names <==> name in s.names && !(name == hex && IsHex(hex))
    ensures var t := Next(s, Removes(hex), token, hash); forall name | name in t.names :: t.names[name] == s.names[name]
  {
  }

  // --- What every step keeps --------------------------------------------------

  /** A file under a digest's name holds bytes with that digest, all of them. */
  predicate Published(s: State, hash: Hash) {
    forall name | name in s.names && IsHex(name) :: s.names[name] in s.data && hash(s.data[s.names[name]]) == name
  }

  predicate WriterOk(s: State, w: nat, token: Tokens, hash: Hash) {
    At(s, w).Writing? ==>
      var Writing(bytes, inode, written) := At(s, w);
      var temporary := Temporary(hash(bytes), token(w));
      && temporary in s.names && s.names[temporary] == inode && inode in s.data
      && written <= |bytes| && s.data[inode] == bytes[..written]
  }

  predicate Inodes(s: State) {
    && (forall name | name in s.names :: s.names[name] in s.data)
    && (forall inode | inode in s.data :: inode < s.next)
    && (forall a, b | a in s.names && b in s.names && s.names[a] == s.names[b] :: a == b)
  }

  ghost predicate Sound(s: State, token: Tokens, hash: Hash) {
    Inodes(s) && Published(s, hash) && forall w | w in s.writers :: WriterOk(s, w, token, hash)
  }

  /** Two writers with distinct tokens never share a temporary name. */
  lemma OwnTemporary(token: Tokens, hash: Hash, v: nat, a: Bytes, w: nat, b: Bytes)
    requires DistinctTokens(token) && Hashes(hash)
    ensures Temporary(hash(a), token(v)) == Temporary(hash(b), token(w)) ==> v == w
  {
    if Temporary(hash(a), token(v)) == Temporary(hash(b), token(w)) {
      assert IsHex(hash(a)) && IsHex(hash(b));
      TemporaryNamesDiffer(hash(a), token(v), hash(b), token(w));
    }
  }

  lemma OpensKeeps(s: State, w: nat, token: Tokens, hash: Hash)
    requires Sound(s, token, hash) && DistinctTokens(token) && Hashes(hash)
    ensures Sound(OnOpens(s, w, token, hash), token, hash)
  {
    if At(s, w).Decided? {
      var t := OnOpens(s, w, token, hash);
      var bytes := At(s, w).bytes;
      TemporaryIsNoDigest(hash(bytes), token(w));
      hide IsHex, Temporary;
      forall v | v in t.writers && v != w ensures WriterOk(t, v, token, hash) {
        if At(s, v).Writing? { OwnTemporary(token, hash, v, At(s, v).bytes, w, bytes); }
      }
    }
  }

  lemma WritesKeeps(s: State, w: nat, n: nat, token: Tokens, hash: Hash)
    requires Sound(s, token, hash) && DistinctTokens(token) && Hashes(hash)
    ensures Sound(OnWrites(s, w, n), token, hash)
  {
    if At(s, w).Writing? {
      assert WriterOk(s, w, token, hash);
      var Writing(bytes, inode, written) := At(s, w);
      var t := OnWrites(s, w, n);
      TemporaryIsNoDigest(hash(bytes), token(w));
      hide IsHex, Temporary;
      var upto := At(t, w).written;
      assert WriteAt(bytes[..written], written, bytes[written..upto]) == bytes[..upto];
      forall v | v in t.writers && v != w ensures WriterOk(t, v, token, hash) {
        if At(s, v).Writing? { OwnTemporary(token, hash, v, At(s, v).bytes, w, bytes); }
      }
    }
  }

  lemma RenamesKeeps(s: State, w: nat, token: Tokens, hash: Hash)
    requires Sound(s, token, hash) && DistinctTokens(token) && Hashes(hash)
    ensures Sound(OnRenames(s, w, token, hash), token, hash)
  {
    if At(s, w).Writing? && At(s, w).written == |At(s, w).bytes| {
      assert WriterOk(s, w, token, hash);
      var bytes := At(s, w).bytes;
      assert bytes[..|bytes|] == bytes;
      var t := OnRenames(s, w, token, hash);
      TemporaryIsNoDigest(hash(bytes), token(w));
      forall v | v in t.writers && v != w ensures WriterOk(t, v, token, hash) {
        if At(s, v).Writing? {
          OwnTemporary(token, hash, v, At(s, v).bytes, w, bytes);
          TemporaryIsNoDigest(hash(At(s, v).bytes), token(v));
        }
      }
      hide IsHex, Temporary;
    }
  }

  lemma StepKeepsSound(s: State, step: Step, token: Tokens, hash: Hash)
    requires Sound(s, token, hash) && DistinctTokens(token) && Hashes(hash)
    ensures Sound(Next(s, step, token, hash), token, hash)
  {
    match step
    case Opens(w) => OpensKeeps(s, w, token, hash);
    case Writes(w, n) => WritesKeeps(s, w, n, token, hash);
    case Renames(w) => RenamesKeeps(s, w, token, hash);
    case Removes(hex) =>
      forall v | v in s.writers && At(s, v).Writing? ensures Temporary(hash(At(s, v).bytes), token(v)) != hex || !IsHex(hex) {
        TemporaryIsNoDigest(hash(At(s, v).bytes), token(v));
      }
      hide IsHex, Temporary;
    case _ => hide IsHex, Temporary;
  }

  const EMPTY := State(map[], map[], map[], 0)

  lemma {:induction false} RunKeepsSound(s: State, steps: seq<Step>, token: Tokens, hash: Hash)
    requires Sound(s, token, hash) && DistinctTokens(token) && Hashes(hash)
    ensures Sound(After(s, steps, token, hash), token, hash)
    decreases |steps|
  {
    hide Sound, Next;
    if steps != [] {
      StepKeepsSound(s, steps[0], token, hash);
      RunKeepsSound(Next(s, steps[0], token, hash), steps[1..], token, hash);
    }
  }

  /** What a reader can see: the published files, by digest. */
  function Visible(s: State): map<string, Bytes>
    requires Inodes(s)
  {
    map name | name in s.names && IsHex(name) :: s.data[s.names[name]]
  }

  lemma WritingIsInvisible(s: State, w: nat, n: nat, token: Tokens, hash: Hash)
    requires Sound(s, token, hash) && Hashes(hash)
    ensures Inodes(OnOpens(s, w, token, hash)) && Visible(OnOpens(s, w, token, hash)) == Visible(s)
    ensures Inodes(OnWrites(s, w, n)) && Visible(OnWrites(s, w, n)) == Visible(s)
  {
    if At(s, w) != Idle {
      assert WriterOk(s, w, token, hash);
      TemporaryIsNoDigest(hash(At(s, w).bytes), token(w));
    }
    hide IsHex, Temporary, WriteAt;
  }

  predicate Finishes(s: State, step: Step) {
    step.Renames? && At(s, step.w).Writing? && At(s, step.w).written == |At(s, step.w).bytes|
  }

  lemma RenameAdds(s: State, w: nat, token: Tokens, hash: Hash)
    requires Sound(s, token, hash) && DistinctTokens(token) && Hashes(hash) && Finishes(s, Renames(w))
    ensures var t := OnRenames(s, w, token, hash);
            Inodes(t) && Visible(t) == Visible(s)[hash(At(s, w).bytes) := At(s, w).bytes]
  {
    RenamesKeeps(s, w, token, hash);
    var bytes := At(s, w).bytes;
    assert WriterOk(s, w, token, hash) && IsHex(hash(bytes));
    TemporaryIsNoDigest(hash(bytes), token(w));
    assert bytes[..|bytes|] == bytes;
    hide IsHex, Temporary, Published;
  }

  /** The store behaves as a map from digests to bytes: a put adds its whole content in
      one step, its rename; a removal takes one digest out; nothing else is visible. */
  lemma StoreIsAMap(s: State, step: Step, token: Tokens, hash: Hash)
    requires Sound(s, token, hash) && DistinctTokens(token) && Hashes(hash)
    ensures var t := Next(s, step, token, hash);
            && Inodes(t)
            && Visible(t) == if Finishes(s, step) then Visible(s)[hash(At(s, step.w).bytes) := At(s, step.w).bytes]
                             else if step.Removes? then Visible(s) - {step.hex}
                             else Visible(s)
  {
    match step {
      case Opens(w) => WritingIsInvisible(s, w, 0, token, hash); hide OnOpens, Visible;
      case Writes(w, n) => WritingIsInvisible(s, w, n, token, hash); hide OnWrites, Visible;
      case Renames(w) => if Finishes(s, step) { RenameAdds(s, w, token, hash); hide OnRenames, Visible; }
      case _ => hide Temporary;
    }
  }

  /** Putting bytes that are there changes nothing a reader can see, whether the second
      writer notices at the start or only its rename lands later. */
  lemma RepeatedPutIsInvisible(s: State, step: Step, w: nat, token: Tokens, hash: Hash)
    requires Sound(s, token, hash) && DistinctTokens(token) && Hashes(hash)
    requires forall a, b :: hash(a) == hash(b) ==> a == b
    requires step == Renames(w) && At(s, w).Writing? && hash(At(s, w).bytes) in s.names
    ensures Inodes(Next(s, step, token, hash)) && Visible(Next(s, step, token, hash)) == Visible(s)
    ensures Next(s, Begin(w, At(s, w).bytes), token, hash) == s
  {
    StoreIsAMap(s, step, token, hash);
    assert IsHex(hash(At(s, w).bytes));
    hide IsHex, Temporary;
    assert hash(Visible(s)[hash(At(s, w).bytes)]) == hash(At(s, w).bytes);
  }

  // --- Readers ----------------------------------------------------------------

  /** A file no writer can reach any more. */
  predicate Sealed(s: State, inode: Inode) {
    && inode in s.data && inode < s.next
    && (forall name | name in s.names && s.names[name] == inode :: IsHex(name))
    && (forall w | w in s.writers && At(s, w).Writing? :: At(s, w).inode != inode)
  }

  lemma PublishedIsSealed(s: State, hex: string, token: Tokens, hash: Hash)
    requires Sound(s, token, hash) && hex in s.names && IsHex(hex)
    ensures Sealed(s, s.names[hex]) && hash(s.data[s.names[hex]]) == hex
  {
    forall w | w in s.writers && At(s, w).Writing? ensures At(s, w).inode != s.names[hex] {
      assert WriterOk(s, w, token, hash);
      TemporaryIsNoDigest(hash(At(s, w).bytes), token(w));
    }
  }

  lemma SealedStays(s: State, step: Step, inode: Inode, token: Tokens, hash: Hash)
    requires Sealed(s, inode) && Hashes(hash)
    ensures var t := Next(s, step, token, hash); Sealed(t, inode) && t.data[inode] == s.data[inode]
  {
    if step.Opens? && At(s, step.w).Decided? { TemporaryIsNoDigest(hash(At(s, step.w).bytes), token(step.w)); }
    if step.Renames? && At(s, step.w).Writing? { assert IsHex(hash(At(s, step.w).bytes)); }
    hide IsHex, Temporary;
  }

  /** A reader that has opened a published file reads all of it, whatever puts and
      removals happen meanwhile. */
  lemma {:induction false} ReadsWhatItOpened(s: State, steps: seq<Step>, inode: Inode, token: Tokens, hash: Hash)
    requires Sealed(s, inode) && Hashes(hash)
    ensures var t := After(s, steps, token, hash); Sealed(t, inode) && t.data[inode] == s.data[inode]
    decreases |steps|
  {
    hide Sealed, Next;
    if steps != [] {
      SealedStays(s, steps[0], inode, token, hash);
      ReadsWhatItOpened(Next(s, steps[0], token, hash), steps[1..], inode, token, hash);
    }
  }

  // --- Tokens that are not distinct -------------------------------------------

  /** The second writer empties the file the first is about to publish. */
  function Clash(a: nat, b: nat, bytes: Bytes): seq<Step> {
    [Begin(a, bytes), Begin(b, bytes), Opens(a), Writes(a, |bytes|), Opens(b), Renames(a)]
  }

  lemma ClashTruncates(a: nat, b: nat, bytes: Bytes, token: Tokens, hash: Hash)
    requires a != b && token(a) == token(b) && Hashes(hash) && hash(bytes) != hash([]) && |bytes| <= MAX_BLOB_BYTES
    ensures !Published(After(EMPTY, Clash(a, b, bytes), token, hash), hash)
  {
    var hex := hash(bytes);
    var temporary := Temporary(hex, token(a));
    var s1 := State(map[], map[], map[a := Decided(bytes)], 0);
    var s2 := s1.(writers := map[a := Decided(bytes), b := Decided(bytes)]);
    var s3 := State(map[temporary := 0], map[0 := []], s2.writers[a := Writing(bytes, 0, 0)], 1);
    var s4 := s3.(data := map[0 := bytes], writers := s3.writers[a := Writing(bytes, 0, |bytes|)]);
    var s5 := s4.(data := map[0 := []], writers := s4.writers[b := Writing(bytes, 0, 0)]);
    var s6 := Next(s5, Renames(a), token, hash);
    assert IsHex(hex);
    hide IsHex, Temporary;
    assert Next(EMPTY, Begin(a, bytes), token, hash) == s1;
    assert Next(s1, Begin(b, bytes), token, hash) == s2;
    assert Next(s2, Opens(a), token, hash) == s3;
    assert WriteAt([], 0, bytes[0..|bytes|]) == bytes;
    assert Next(s3, Writes(a, |bytes|), token, hash) == s4;
    assert Next(s4, Opens(b), token, hash) == s5;
    assert hex in s6.names && s6.data[s6.names[hex]] == [];
    ClashRun(a, b, bytes, token, hash);
  }

  lemma AfterFrom(s: State, run: seq<Step>, i: nat, token: Tokens, hash: Hash)
    requires i < |run|
    ensures After(s, run[i..], token, hash) ==
            if i == |run| - 1 then Next(s, run[i], token, hash) else After(Next(s, run[i], token, hash), run[i + 1..], token, hash)
  {
    assert run[i..][1..] == run[i + 1..];
    hide Next;
  }

  lemma ClashRun(a: nat, b: nat, bytes: Bytes, token: Tokens, hash: Hash)
    ensures After(EMPTY, Clash(a, b, bytes), token, hash) ==
            Next(Next(Next(Next(Next(Next(EMPTY, Begin(a, bytes), token, hash), Begin(b, bytes), token, hash),
              Opens(a), token, hash), Writes(a, |bytes|), token, hash), Opens(b), token, hash), Renames(a), token, hash)
  {
    hide Next, After;
    var run := Clash(a, b, bytes);
    var s1 := Next(EMPTY, run[0], token, hash);
    var s2 := Next(s1, run[1], token, hash);
    var s3 := Next(s2, run[2], token, hash);
    var s4 := Next(s3, run[3], token, hash);
    var s5 := Next(s4, run[4], token, hash);
    AfterFrom(EMPTY, run, 0, token, hash);
    AfterFrom(s1, run, 1, token, hash);
    AfterFrom(s2, run, 2, token, hash);
    AfterFrom(s3, run, 3, token, hash);
    AfterFrom(s4, run, 4, token, hash);
    AfterFrom(s5, run, 5, token, hash);
    assert run[0..] == run;
  }

  /** Every published file is complete in every run exactly when no two writers share a
      token: the guarantee rests on that and on nothing else. */
  lemma CompleteIff(token: Tokens, hash: Hash, some: Bytes)
    requires Hashes(hash) && hash(some) != hash([]) && |some| <= MAX_BLOB_BYTES
    ensures DistinctTokens(token) <==> forall steps :: Published(After(EMPTY, steps, token, hash), hash)
  {
    hide After, Published;
    if DistinctTokens(token) {
      forall steps ensures Published(After(EMPTY, steps, token, hash), hash) {
        EmptyIsSound(token, hash);
        RunKeepsSound(EMPTY, steps, token, hash);
      }
    } else {
      var a, b :| token(a) == token(b) && a != b;
      hide Hashes, Clash, EMPTY;
      ClashTruncates(a, b, some, token, hash);
      assert !Published(After(EMPTY, Clash(a, b, some), token, hash), hash);
    }
  }

  lemma EmptyIsSound(token: Tokens, hash: Hash)
    ensures Sound(EMPTY, token, hash)
  {
  }

  // --- The operations ---------------------------------------------------------

  datatype PutResult = TooBig | Stored(hex: string, existed: bool)

  datatype GetResult = NotHere | Corrupt | Found(bytes: Bytes)

  predicate By(step: Step, w: nat) { !step.Removes? && step.w == w }

  class Store {
    const token: Tokens
    const hash: Hash
    var names: map<string, Inode>
    var data: map<Inode, Bytes>
    var writers: map<nat, Writer>
    var next: Inode

    function Now(): State
      reads this
    {
      State(names, data, writers, next)
    }

    ghost predicate Valid()
      reads this
    {
      Hashes(hash) && DistinctTokens(token) && Sound(Now(), token, hash)
    }

    constructor (token: Tokens, hash: Hash)
      ensures this.token == token && this.hash == hash && Now() == EMPTY
    {
      this.token, this.hash := token, hash;
      names, data, writers, next := map[], map[], map[], 0;
    }

    method Do(step: Step)
      requires Valid()
      modifies this
      ensures Valid() && Now() == Next(old(Now()), step, token, hash)
    {
      StepKeepsSound(Now(), step, token, hash);
      hide Sound, Next;
      var t := Next(Now(), step, token, hash);
      names, data, writers, next := t.names, t.data, t.writers, t.next;
    }

    /** What everybody but writer `w` does meanwhile. */
    method Others(w: nat, steps: seq<Step>) returns (ghost log: seq<Step>)
      requires Valid()
      modifies this
      ensures Valid() && Now() == After(old(Now()), log, token, hash) && At(Now(), w) == At(old(Now()), w)
    {
      hide Sound, Next, After;
      log := [];
      AfterNone(Now(), token, hash);
      for i := 0 to |steps|
        invariant Valid() && Now() == After(old(Now()), log, token, hash) && At(Now(), w) == At(old(Now()), w)
      {
        if !By(steps[i], w) {
          OthersLeave(Now(), steps[i], w, token, hash);
          AfterMore(old(Now()), log, steps[i], token, hash);
          Do(steps[i]);
          log := log + [steps[i]];
        }
      }
    }

    /** `put`, with whatever the others do between its system calls. It returns with the
        content published under its digest, or found there at the start. */
    method Put(w: nat, bytes: Bytes, gap: nat -> seq<Step>, piece: nat -> nat) returns (r: PutResult, ghost log: seq<Step>)
      requires Valid() && At(Now(), w) == Idle
      modifies this
      ensures Valid() && Now() == After(old(Now()), log, token, hash)
      ensures r.TooBig? <==> |bytes| > 268_435_456
      ensures r.Stored? ==> r.hex == hash(bytes) && (r.existed <==> r.hex in old(names))
      ensures r.TooBig? || r.existed ==> Now() == old(Now())
      ensures r.Stored? && !r.existed ==> r.hex in names && names[r.hex] in data && data[names[r.hex]] == bytes
    {
      hide Sound, Next, After;
      log := [];
      AfterNone(Now(), token, hash);
      if |bytes| > MAX_BLOB_BYTES { return TooBig, log; }
      var hex := hash(bytes);
      if hex in names { return Stored(hex, true), log; }
      ghost var start := Now();
      log := Sys(start, log, Begin(w, bytes));
      BeginDecides(start, w, bytes, token, hash);
      log := Gap(start, log, w, gap(0));
      Opened(Now(), w, token, hash);
      log := Sys(start, log, Opens(w));
      var k := 1;
      while At(Now(), w).written < |bytes|
        invariant Valid() && Now() == After(start, log, token, hash)
        invariant At(Now(), w).Writing? && At(Now(), w).bytes == bytes && At(Now(), w).written <= |bytes|
        decreases |bytes| - At(Now(), w).written
      {
        log := Gap(start, log, w, gap(k));
        Written(Now(), w, piece(k) + 1, token, hash);
        log := Sys(start, log, Writes(w, piece(k) + 1));
        k := k + 1;
      }
      log := Gap(start, log, w, gap(k));
      RenamedIsPublished(Now(), w, token, hash);
      log := Sys(start, log, Renames(w));
      r := Stored(hex, false);
    }

    method Sys(ghost start: State, ghost sofar: seq<Step>, step: Step) returns (ghost log: seq<Step>)
      requires Valid() && Now() == After(start, sofar, token, hash)
      modifies this
      ensures Valid() && Now() == After(start, log, token, hash) && Now() == Next(old(Now()), step, token, hash)
    {
      hide Sound, Next, After;
      AfterMore(start, sofar, step, token, hash);
      Do(step);
      log := sofar + [step];
    }

    method Gap(ghost start: State, ghost sofar: seq<Step>, w: nat, steps: seq<Step>) returns (ghost log: seq<Step>)
      requires Valid() && Now() == After(start, sofar, token, hash)
      modifies this
      ensures Valid() && Now() == After(start, log, token, hash) && At(Now(), w) == At(old(Now()), w)
    {
      hide Sound, Next, After;
      ghost var more := Others(w, steps);
      AfterBoth(start, sofar, more, token, hash);
      log := sofar + more;
    }

    /** `get`, of a directory in any state, damaged or not. */
    method Get(hex: string) returns (r: GetResult)
      ensures r.Found? ==> hash(r.bytes) == hex
      ensures r.NotHere? <==> hex !in names || names[hex] !in data
      ensures r.Found? ==> r.bytes == data[names[hex]]
      ensures Valid() && IsHex(hex) ==> !r.Corrupt? && (r.Found? <==> hex in Visible(Now())) && (r.Found? ==> r.bytes == Visible(Now())[hex])
    {
      if hex !in names || names[hex] !in data { return NotHere; }
      var bytes := data[names[hex]];
      if hash(bytes) != hex { return Corrupt; }
      return Found(bytes);
    }

    method Remove(hex: string) returns (was: bool)
      requires Valid() && IsHex(hex)
      modifies this
      ensures Valid() && was == (hex in old(names)) && Now() == OnRemoves(old(Now()), hex)
    {
      was := hex in names;
      Do(Removes(hex));
    }

    /** `list`: every digest the store holds, in order, and never a temporary file. */
    method List() returns (digests: seq<string>)
      ensures forall text :: text in digests <==> exists hex :: hex in names && IsHex(hex) && text == PREFIX + hex
      ensures forall i, j | 0 <= i < j < |digests| :: NameLess(digests[i], digests[j])
    {
      hide NameLess, IsHex, Parse;
      digests := [];
      var left := names.Keys;
      while left != {}
        invariant left <= names.Keys
        invariant forall text :: text in digests <==> exists hex :: hex in names && hex !in left && IsHex(hex) && text == PREFIX + hex
        invariant Ascending(digests)
        decreases left
      {
        var name :| name in left;
        left := left - {name};
        var d := Parse(PREFIX + name);
        ParseName(name);
        if d.Some? { digests := Insert(digests, PREFIX + name); }
      }
    }
  }

  ghost predicate Ascending(s: seq<string>) { forall i, j | 0 <= i < j < |s| :: NameLess(s[i], s[j]) }

  lemma ParseName(name: string)
    ensures Parse(PREFIX + name) == if IsHex(name) then Some(name) else None
    ensures forall other :: PREFIX + other == PREFIX + name ==> other == name
  {
    ParseIff(PREFIX + name, name);
    if d :| Parse(PREFIX + name) == Some(d) { ParseIff(PREFIX + name, d); SamePrefix(d, name); }
    forall other | PREFIX + other == PREFIX + name ensures other == name { SamePrefix(other, name); }
  }

  lemma SamePrefix(a: string, b: string)
    ensures PREFIX + a == PREFIX + b ==> a == b
  {
    assert (PREFIX + a)[|PREFIX|..] == a && (PREFIX + b)[|PREFIX|..] == b;
  }

  /** Into its place among the digests before it. */
  method Insert(s: seq<string>, d: string) returns (r: seq<string>)
    requires Ascending(s)
    ensures Ascending(r) && forall x :: x in r <==> x in s || x == d
  {
    NamesStrictTotal();
    hide NameLess;
    var k := 0;
    while k < |s| && NameLess(s[k], d)
      invariant k <= |s| && forall i | 0 <= i < k :: NameLess(s[i], d)
    {
      k := k + 1;
    }
    if k < |s| && s[k] == d { return s; }
    r := s[..k] + [d] + s[k..];
    assert s == s[..k] + s[k..];
  }

  lemma AfterNone(s: State, token: Tokens, hash: Hash)
    ensures After(s, [], token, hash) == s
  {
  }

  lemma {:induction false} AfterBoth(s: State, log: seq<Step>, more: seq<Step>, token: Tokens, hash: Hash)
    ensures After(s, log + more, token, hash) == After(After(s, log, token, hash), more, token, hash)
    decreases |log|
  {
    hide Next;
    if log == [] {
      assert log + more == more;
    } else {
      AfterBoth(Next(s, log[0], token, hash), log[1..], more, token, hash);
      assert (log + more)[1..] == log[1..] + more;
    }
  }

  lemma AfterMore(s: State, log: seq<Step>, step: Step, token: Tokens, hash: Hash)
    ensures After(s, log + [step], token, hash) == Next(After(s, log, token, hash), step, token, hash)
  {
    AfterBoth(s, log, [step], token, hash);
    assert [step][1..] == [];
    hide Next;
  }

  lemma OthersLeave(s: State, step: Step, w: nat, token: Tokens, hash: Hash)
    requires !By(step, w)
    ensures At(Next(s, step, token, hash), w) == At(s, w)
  {
    hide Temporary, IsHex, WriteAt;
  }

  lemma BeginDecides(s: State, w: nat, bytes: Bytes, token: Tokens, hash: Hash)
    requires At(s, w) == Idle && |bytes| <= MAX_BLOB_BYTES && hash(bytes) !in s.names
    ensures At(Next(s, Begin(w, bytes), token, hash), w) == Decided(bytes)
  {
  }

  lemma Opened(s: State, w: nat, token: Tokens, hash: Hash)
    requires At(s, w).Decided?
    ensures var t := At(Next(s, Opens(w), token, hash), w); t.Writing? && t.bytes == At(s, w).bytes && t.written == 0
  {
  }

  lemma Written(s: State, w: nat, n: nat, token: Tokens, hash: Hash)
    requires Sound(s, token, hash) && At(s, w).Writing? && n > 0 && At(s, w).written < |At(s, w).bytes|
    ensures var t := At(Next(s, Writes(w, n), token, hash), w);
            t.Writing? && t.bytes == At(s, w).bytes && At(s, w).written < t.written <= |t.bytes|
  {
    assert WriterOk(s, w, token, hash);
  }

  lemma RenamedIsPublished(s: State, w: nat, token: Tokens, hash: Hash)
    requires Sound(s, token, hash) && DistinctTokens(token) && Hashes(hash) && Finishes(s, Renames(w))
    ensures var t, bytes := Next(s, Renames(w), token, hash), At(s, w).bytes;
            hash(bytes) in t.names && t.names[hash(bytes)] in t.data && t.data[t.names[hash(bytes)]] == bytes
  {
    RenameAdds(s, w, token, hash);
    var t, bytes := OnRenames(s, w, token, hash), At(s, w).bytes;
    assert hash(bytes) in Visible(t);
    hide OnRenames;
  }
}
