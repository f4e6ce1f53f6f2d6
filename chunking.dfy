/** The chunking sample: pick an input file, derive the output paths from its
    extension, build the all-'0' entropy, then encrypt the file through a
    1 KB buffer in place and decrypt it back chunk by chunk. A file's
    contents are given as the chunks successive `read(buffer)` calls return; the MKE engine is
    a `ChunkEngine`. */
module Chunking {
  import opened JavaLang
  import opened MteEngine

  const BufferSize := 1024
  const DefaultExtension := ".txt"
  const EncodedFileBase := "src/encoded"
  const DecodedFileBase := "src/decoded"

  /** `s.lastIndexOf(c)`: the last position of `c`, or -1. */
  function LastIndexOf(s: string, c: char): (i: int)
    ensures -1 <= i < |s|
    ensures i >= 0 ==> s[i] == c
    ensures forall k :: i < k < |s| ==> s[k] != c
  {
    if |s| == 0 then -1
    else if s[|s| - 1] == c then |s| - 1
    else LastIndexOf(s[..|s| - 1], c)
  }

  /** What follows the last '/' of `s`. */
  function LastComponent(s: string): string {
    s[LastIndexOf(s, '/') + 1..]
  }

  /** Appending a character other than '/' extends the last component. */
  lemma LastComponentAppend(s: string, x: char)
    requires x != '/'
    ensures LastComponent(s + [x]) == LastComponent(s) + [x]
  {
    assert (s + [x])[..|s|] == s;
    assert LastIndexOf(s + [x], '/') == LastIndexOf(s, '/');
  }

  /** The run-collapsing half of `File`'s path normalization on Unix: a '/'
      right after another '/' is dropped. */
  function CollapseSlashes(p: string): (c: string)
    ensures |p| > 0 ==> |c| > 0 && c[|c| - 1] == p[|p| - 1]
  {
    if |p| <= 1 then p
    else if p[|p| - 1] == '/' && p[|p| - 2] == '/' then CollapseSlashes(p[..|p| - 1])
    else CollapseSlashes(p[..|p| - 1]) + [p[|p| - 1]]
  }

  /** Collapsing runs of '/' keeps the last component. */
  lemma {:induction false} CollapseKeepsLastComponent(p: string)
    ensures LastComponent(CollapseSlashes(p)) == LastComponent(p)
  {
    if |p| > 1 {
      var front := p[..|p| - 1];
      var x := p[|p| - 1];
      assert p == front + [x];
      var c := CollapseSlashes(front);
      if x == '/' {
        var cp := CollapseSlashes(p);
        assert LastIndexOf(cp, '/') == |cp| - 1;
        assert LastIndexOf(p, '/') == |p| - 1;
      } else {
        CollapseKeepsLastComponent(front);
        LastComponentAppend(c, x);
        LastComponentAppend(front, x);
      }
    }
  }

  /** `new File(path).getName()`: `File` normalizes the path (runs of '/'
      collapse, a trailing '/' is dropped unless the path is "/"), and the
      name is what follows the last '/'. */
  function FileName(path: string): (name: string)
    ensures '/' !in name
    // an ordinary path: what follows its last '/'
    ensures |path| == 0 || path[|path| - 1] != '/' ==> name == path[LastIndexOf(path, '/') + 1..]
  {
    CollapseKeepsLastComponent(path);
    LastComponent(Normalized(path))
  }

  /** `File`'s normalized form of `path` on Unix. */
  function Normalized(path: string): string {
    var c := CollapseSlashes(path);
    if |c| > 1 && c[|c| - 1] == '/' then c[..|c| - 1] else c
  }

  /** A trailing '/' does not change the name: `new File("data.v2/")` is named
      "data.v2". */
  lemma TrailingSlashIgnored(path: string)
    ensures FileName(path + "/") == FileName(path)
  {
    if |path| == 0 {
      RootHasEmptyName();
      assert path + "/" == "/";
    } else {
      NormalizedAppendSlash(path);
      assert FileName(path + "/") == LastComponent(Normalized(path + "/"));
    }
  }

  /** `new File("/").getName()` and `new File("").getName()` are both "". */
  lemma RootHasEmptyName()
    ensures FileName("/") == "" && FileName("") == ""
  {
    assert CollapseSlashes("/") == "/";
    assert LastIndexOf("/", '/') == 0;
  }

  /** Appending '/' to a non-empty path does not change its normalized form. */
  lemma NormalizedAppendSlash(path: string)
    requires |path| > 0
    ensures Normalized(path + "/") == Normalized(path)
  {
    var q := path + "/";
    assert q[..|q| - 1] == path && q[|q| - 2] == path[|path| - 1];
    var cp := CollapseSlashes(path);
    if path[|path| - 1] != '/' {
      assert CollapseSlashes(q) == cp + ['/'];
      assert (cp + ['/'])[..|cp|] == cp;
    }
  }

  /** The suffix both output paths get: the name from its last '.' on, or
      ".txt" when the name has no '.'. */
  function Extension(filename: string): (ext: string)
    ensures |ext| >= 1 && ext[0] == '.'
    ensures '.' !in filename ==> ext == DefaultExtension
  {
    if '.' in filename then filename[LastIndexOf(filename, '.')..] else DefaultExtension
  }

  /** The extension starts with '.', holds no other '.', and ends the name;
      without a '.' in the name it is ".txt". */
  lemma ExtensionIsLastDotSuffix(filename: string)
    ensures '.' in filename ==>
              var ext := Extension(filename);
              && |ext| >= 1 && ext[0] == '.' && '.' !in ext[1..]
              && filename == filename[..|filename| - |ext|] + ext
    ensures '.' !in filename ==> Extension(filename) == ".txt"
  {
    if '.' in filename {
      var i := LastIndexOf(filename, '.');
      var k :| 0 <= k < |filename| && filename[k] == '.';
      assert i >= 0;
      var ext := Extension(filename);
      assert forall j :: 0 <= j < |ext| - 1 ==> ext[1..][j] == filename[i + 1 + j];
    }
  }

  /** The entropy the sample builds: `n` copies of '0'. */
  predicate AllZeroChars(s: string) {
    forall i :: 0 <= i < |s| ==> s[i] == '0'
  }

  /** `String.replace(old, new)`. */
  function Replace(s: string, oldChar: char, newChar: char): (r: string)
    ensures |r| == |s|
    ensures forall i :: 0 <= i < |s| ==> r[i] == if s[i] == oldChar then newChar else s[i]
  {
    if s == [] then [] else Replace(s[..|s| - 1], oldChar, newChar) + [if s[|s| - 1] == oldChar then newChar else s[|s| - 1]]
  }

  /** The `StringBuffer` fill loop: exactly `entropyMinBytes` '0's. */
  method ZeroEntropy(entropyMinBytes: nat) returns (entropy: string)
    ensures |entropy| == entropyMinBytes && AllZeroChars(entropy)
    ensures Replace(entropy, ' ', '0') == entropy
  {
    entropy := "";
    var i := 0;
    while i < entropyMinBytes
      invariant 0 <= i <= entropyMinBytes
      invariant |entropy| == i && AllZeroChars(entropy)
    {
      entropy := entropy + "0";
      i := i + 1;
    }
    ReplaceWithoutOccurrence(entropy, ' ', '0');
  }

  /** Replacing a character that does not occur changes nothing, which is
      why the discarded `entropy.replace(' ', '0')` has no effect either. */
  lemma ReplaceWithoutOccurrence(s: string, oldChar: char, newChar: char)
    requires oldChar !in s
    ensures Replace(s, oldChar, newChar) == s
  {
  }

  /** The sample's static output paths, which `main` suffixes. */
  class ChunkingSample {
    var pathToEncodedFile: string
    var pathToDecodedFile: string

    constructor ()
      ensures pathToEncodedFile == EncodedFileBase && pathToDecodedFile == DecodedFileBase
    {
      pathToEncodedFile := EncodedFileBase;
      pathToDecodedFile := DecodedFileBase;
    }

    /** The prompt loop of `main`: read lines until one names an existing
        file, then suffix both output paths with that file's extension,
        once. `lines` is the console input and `fileExists` the file system;
        running out of input makes `new File(null)` throw. */
    method PromptForFile(lines: seq<string>, fileExists: string -> bool) returns (r: Outcome<string>, linesRead: nat)
      modifies this
      ensures r.Thrown? <==> forall i :: 0 <= i < |lines| ==> !fileExists(lines[i])
      ensures r.Thrown? ==> r.exception == NullPointer && linesRead == |lines|
                            && pathToEncodedFile == old(pathToEncodedFile) && pathToDecodedFile == old(pathToDecodedFile)
      ensures r.Normal? ==>
                && 0 < linesRead <= |lines| && r.value == lines[linesRead - 1] && fileExists(r.value)
                && (forall i :: 0 <= i < linesRead - 1 ==> !fileExists(lines[i]))
                && pathToEncodedFile == old(pathToEncodedFile) + Extension(FileName(r.value))
                && pathToDecodedFile == old(pathToDecodedFile) + Extension(FileName(r.value))
    {
      linesRead := 0;
      while true
        invariant 0 <= linesRead <= |lines|
        invariant forall i :: 0 <= i < linesRead ==> !fileExists(lines[i])
        invariant pathToEncodedFile == old(pathToEncodedFile) && pathToDecodedFile == old(pathToDecodedFile)
        decreases |lines| - linesRead
      {
        if linesRead == |lines| {
          return Thrown(NullPointer), linesRead;
        }
        var fPath := lines[linesRead];
        linesRead := linesRead + 1;
        if fileExists(fPath) {
          var filename := FileName(fPath);
          var extension := "";
          if '.' in filename {
            extension := filename[LastIndexOf(filename, '.')..];
            pathToEncodedFile := pathToEncodedFile + extension;
            pathToDecodedFile := pathToDecodedFile + extension;
          } else {
            pathToEncodedFile := pathToEncodedFile + DefaultExtension;
            pathToDecodedFile := pathToDecodedFile + DefaultExtension;
          }
          return Normal(fPath), linesRead;
        }
      }
    }
  }

  /** What `read(buffer)` can return on a 1 KB buffer before end of file. */
  predicate ValidReads(chunks: seq<seq<Byte>>) {
    forall i :: 0 <= i < |chunks| ==> 0 < |chunks[i]| <= BufferSize
  }

  function TotalLength(chunks: seq<seq<Byte>>): nat {
    if chunks == [] then 0 else TotalLength(chunks[..|chunks| - 1]) + |chunks[|chunks| - 1]|
  }

  /** The encode loop, chunk by chunk: everything written so far and the
      encoder afterwards, or the status that stopped it. */
  function EncryptAll(ce: ChunkEngine, encoder: Instance, chunks: seq<seq<Byte>>): (r: Status<(seq<Byte>, Instance)>)
    requires InPlace(ce)
    ensures r.Ok? ==> |r.value.0| == TotalLength(chunks)
  {
    if chunks == [] then Ok(([], encoder))
    else
      var before := EncryptAll(ce, encoder, chunks[..|chunks| - 1]);
      if before.Failed? then before
      else
        var chunk := ce.encryptChunk(before.value.1, chunks[|chunks| - 1]);
        if chunk.Failed? then Failed(chunk.status)
        else Ok((before.value.0 + chunk.value.0, chunk.value.1))
  }

  /** Each chunk's ciphertext lands at the position of its plaintext: chunk
      `i` occupies the bytes from the total length of the chunks before it. */
  lemma {:induction false} EncryptAllLayout(ce: ChunkEngine, encoder: Instance, chunks: seq<seq<Byte>>, i: nat)
    requires InPlace(ce)
    requires i < |chunks|
    requires EncryptAll(ce, encoder, chunks).Ok?
    ensures EncryptAll(ce, encoder, chunks[..i]).Ok?
    ensures ce.encryptChunk(EncryptAll(ce, encoder, chunks[..i]).value.1, chunks[i]).Ok?
    ensures var before := EncryptAll(ce, encoder, chunks[..i]).value;
            var out := EncryptAll(ce, encoder, chunks).value.0;
            TotalLength(chunks[..i]) + |chunks[i]| <= |out| &&
            out[TotalLength(chunks[..i])..TotalLength(chunks[..i]) + |chunks[i]|]
              == ce.encryptChunk(before.1, chunks[i]).value.0
  {
    assert chunks[..|chunks|] == chunks;
    if i == |chunks| - 1 {
      assert chunks[..i] == chunks[..|chunks| - 1];
    } else {
      var front := chunks[..|chunks| - 1];
      assert front[..i] == chunks[..i] && front[..i + 1] == chunks[..i + 1] && front[i] == chunks[i];
      EncryptAllLayout(ce, encoder, front, i);
    }
  }

  /** Read `i` is encrypted: every read before it was, and its own
      `encryptChunk`, from the encoder they left, succeeds. */
  predicate ChunkEncrypts(ce: ChunkEngine, encoder: Instance, chunks: seq<seq<Byte>>, i: nat)
    requires InPlace(ce) && i < |chunks|
  {
    var before := EncryptAll(ce, encoder, chunks[..i]);
    before.Ok? && ce.encryptChunk(before.value.1, chunks[i]).Ok?
  }

  /** The encode loop completes exactly when every read is encrypted. */
  lemma EncryptAllCompletes(ce: ChunkEngine, encoder: Instance, chunks: seq<seq<Byte>>)
    requires InPlace(ce)
    ensures EncryptAll(ce, encoder, chunks).Ok? <==>
              forall i :: 0 <= i < |chunks| ==> ChunkEncrypts(ce, encoder, chunks, i)
  {
    if EncryptAll(ce, encoder, chunks).Ok? {
      forall i | 0 <= i < |chunks|
        ensures ChunkEncrypts(ce, encoder, chunks, i)
      {
        EncryptAllLayout(ce, encoder, chunks, i);
      }
    } else if chunks != [] {
      assert !ChunkEncrypts(ce, encoder, chunks, |chunks| - 1);
    }
  }

  /** An encoder that never fails on these reads, whatever its state, gets
      through the whole file. */
  lemma {:induction false} EncryptAllTotal(ce: ChunkEngine, encoder: Instance, chunks: seq<seq<Byte>>)
    requires InPlace(ce)
    requires forall inst: Instance, k :: 0 <= k < |chunks| ==> ce.encryptChunk(inst, chunks[k]).Ok?
    ensures EncryptAll(ce, encoder, chunks).Ok?
  {
    if chunks != [] {
      var front := chunks[..|chunks| - 1];
      forall inst: Instance, k | 0 <= k < |front|
        ensures ce.encryptChunk(inst, front[k]).Ok?
      {
        assert front[k] == chunks[k];
      }
      EncryptAllTotal(ce, encoder, front);
      var before := EncryptAll(ce, encoder, front);
      assert ce.encryptChunk(before.value.1, chunks[|chunks| - 1]).Ok?;
    }
  }

  /** The in-place encode loop (`while ((bytesRead = read(buffer)) != -1)`):
      each read of n bytes goes into `buffer[0..n)`, is encrypted there, and
      exactly those n bytes are written out. */
  method EncryptChunks(ce: ChunkEngine, encoder: Instance, chunks: seq<seq<Byte>>) returns (r: Status<(seq<Byte>, Instance)>)
    requires InPlace(ce) && ValidReads(chunks)
    ensures r == EncryptAll(ce, encoder, chunks)
  {
    var buffer := new Byte[BufferSize];
    var written: seq<Byte> := [];
    var current := encoder;
    var i := 0;
    while i < |chunks|
      invariant 0 <= i <= |chunks|
      invariant EncryptAll(ce, encoder, chunks[..i]) == Ok((written, current))
    {
      var bytesRead := |chunks[i]|;
      ArrayCopy(chunks[i], 0, buffer, 0, bytesRead);
      assert buffer[..bytesRead] == chunks[i];
      var chunk := ce.encryptChunk(current, buffer[..bytesRead]);
      assert chunks[..i + 1][..i] == chunks[..i];
      if chunk.Failed? {
        assert EncryptAll(ce, encoder, chunks[..i + 1]) == Failed(chunk.status);
        EncryptAllStopped(ce, encoder, chunks, i + 1);
        assert chunks[..|chunks|] == chunks;
        return Failed(chunk.status);
      }
      assert |chunk.value.0| == bytesRead;
      ArrayCopy(chunk.value.0, 0, buffer, 0, bytesRead);
      assert buffer[..bytesRead] == chunk.value.0;
      written := written + buffer[..bytesRead];
      current := chunk.value.1;
      i := i + 1;
    }
    assert chunks[..|chunks|] == chunks;
    r := Ok((written, current));
  }

  /** A failed chunk stops the loop for good. */
  lemma {:induction false} EncryptAllStopped(ce: ChunkEngine, encoder: Instance, chunks: seq<seq<Byte>>, n: nat)
    requires InPlace(ce)
    requires n <= |chunks|
    requires EncryptAll(ce, encoder, chunks[..n]).Failed?
    ensures EncryptAll(ce, encoder, chunks) == EncryptAll(ce, encoder, chunks[..n])
  {
    if n < |chunks| {
      var front := chunks[..|chunks| - 1];
      assert front[..n] == chunks[..n];
      EncryptAllStopped(ce, encoder, front, n);
    } else {
      assert chunks[..n] == chunks;
    }
  }

  /** One pass of the decode loop on a chunk of `n` bytes: a full buffer is
      decrypted whole; a shorter one into a new array of `n - cipherBlock`
      bytes, which throws when that is negative, or when decryption reports
      an error. A null result from the whole-buffer call makes the write
      throw. */
  function DecryptChunk(ce: ChunkEngine, decoder: Instance, chunk: seq<Byte>): (r: Outcome<(seq<Byte>, Instance)>)
    requires InPlace(ce)
    ensures |chunk| != BufferSize && |chunk| - ce.cipherBlockBytes < 0 ==> r == Thrown(NegativeArraySize)
    ensures |chunk| != BufferSize && r.Normal? ==> |r.value.0| == |chunk| - ce.cipherBlockBytes
    ensures r.Thrown? ==> r.exception in {NegativeArraySize, IllegalArgument, NullPointer}
    // a full buffer: only a null result throws, and the result is what was decrypted
    ensures |chunk| == BufferSize ==>
              var (decoded, after) := ce.decryptChunk(decoder, chunk);
              && (r.Thrown? <==> decoded.None?)
              && (r.Thrown? ==> r.exception == NullPointer)
              && (r.Normal? ==> r.value == (decoded.value, after))
    // a short read of at least one cipher block: only a negative error code
    // throws, and the result is the output array of `|chunk| - cipherBlock` bytes
    ensures |chunk| != BufferSize && |chunk| >= ce.cipherBlockBytes ==>
              var (decryptError, decoded, after) := ce.decryptChunkInto(decoder, chunk, |chunk| - ce.cipherBlockBytes);
              && (r.Thrown? <==> decryptError < 0)
              && (r.Thrown? ==> r.exception == IllegalArgument)
              && (r.Normal? ==> r.value == (decoded, after))
  {
    if |chunk| == BufferSize then
      var (decoded, after) := ce.decryptChunk(decoder, chunk);
      if decoded.None? then Thrown(NullPointer) else Normal((decoded.value, after))
    else
      var buffBytes := |chunk| - ce.cipherBlockBytes;
      if buffBytes < 0 then Thrown(NegativeArraySize)
      else
        var (decryptError, decoded, after) := ce.decryptChunkInto(decoder, chunk, buffBytes);
        if decryptError < 0 then Thrown(IllegalArgument) else Normal((decoded, after))
  }

  /** The decode loop, chunk by chunk. */
  function DecryptAll(ce: ChunkEngine, decoder: Instance, chunks: seq<seq<Byte>>): (r: Outcome<(seq<Byte>, Instance)>)
    requires InPlace(ce)
    ensures r.Thrown? ==> r.exception in {NegativeArraySize, IllegalArgument, NullPointer}
  {
    if chunks == [] then Normal(([], decoder))
    else
      var before := DecryptAll(ce, decoder, chunks[..|chunks| - 1]);
      if before.Thrown? then before
      else
        var chunk := DecryptChunk(ce, before.value.1, chunks[|chunks| - 1]);
        if chunk.Thrown? then Thrown(chunk.exception)
        else Normal((before.value.0 + chunk.value.0, chunk.value.1))
  }

  /** A failed chunk stops the decode loop for good. */
  lemma {:induction false} DecryptAllStopped(ce: ChunkEngine, decoder: Instance, chunks: seq<seq<Byte>>, n: nat)
    requires InPlace(ce)
    requires n <= |chunks|
    requires DecryptAll(ce, decoder, chunks[..n]).Thrown?
    ensures DecryptAll(ce, decoder, chunks) == DecryptAll(ce, decoder, chunks[..n])
  {
    if n < |chunks| {
      var front := chunks[..|chunks| - 1];
      assert front[..n] == chunks[..n];
      DecryptAllStopped(ce, decoder, front, n);
    } else {
      assert chunks[..n] == chunks;
    }
  }

  /** The decoded output in order: what the reads before read `i` decoded,
      followed by what read `i` decodes to, begins the whole output. */
  lemma {:induction false} DecryptAllLayout(ce: ChunkEngine, decoder: Instance, chunks: seq<seq<Byte>>, i: nat)
    requires InPlace(ce)
    requires i < |chunks|
    requires DecryptAll(ce, decoder, chunks).Normal?
    ensures DecryptAll(ce, decoder, chunks[..i]).Normal?
    ensures DecryptChunk(ce, DecryptAll(ce, decoder, chunks[..i]).value.1, chunks[i]).Normal?
    ensures DecryptAll(ce, decoder, chunks[..i]).value.0
              + DecryptChunk(ce, DecryptAll(ce, decoder, chunks[..i]).value.1, chunks[i]).value.0
            <= DecryptAll(ce, decoder, chunks).value.0
  {
    assert chunks[..|chunks|] == chunks;
    var front := chunks[..|chunks| - 1];
    if i == |chunks| - 1 {
      assert chunks[..i] == front;
    } else {
      assert front[..i] == chunks[..i] && front[i] == chunks[i];
      DecryptAllLayout(ce, decoder, front, i);
      var frontOut := DecryptAll(ce, decoder, front).value.0;
      assert frontOut <= DecryptAll(ce, decoder, chunks).value.0;
    }
  }

  /** Read `i` is decoded: every read before it was, and its own pass of the
      loop, from the decoder they left, does not throw. */
  predicate ChunkDecrypts(ce: ChunkEngine, decoder: Instance, chunks: seq<seq<Byte>>, i: nat)
    requires InPlace(ce) && i < |chunks|
  {
    var before := DecryptAll(ce, decoder, chunks[..i]);
    before.Normal? && DecryptChunk(ce, before.value.1, chunks[i]).Normal?
  }

  /** The decode loop completes exactly when every read is decoded. */
  lemma DecryptAllCompletes(ce: ChunkEngine, decoder: Instance, chunks: seq<seq<Byte>>)
    requires InPlace(ce)
    ensures DecryptAll(ce, decoder, chunks).Normal? <==>
              forall i :: 0 <= i < |chunks| ==> ChunkDecrypts(ce, decoder, chunks, i)
  {
    if DecryptAll(ce, decoder, chunks).Normal? {
      forall i | 0 <= i < |chunks|
        ensures ChunkDecrypts(ce, decoder, chunks, i)
      {
        DecryptAllLayout(ce, decoder, chunks, i);
      }
    } else if chunks != [] {
      assert !ChunkDecrypts(ce, decoder, chunks, |chunks| - 1);
    }
  }

  /** A decoder that never fails on these reads, whatever its state, gets
      through the whole file. */
  lemma {:induction false} DecryptAllTotal(ce: ChunkEngine, decoder: Instance, chunks: seq<seq<Byte>>)
    requires InPlace(ce)
    requires forall inst: Instance, k :: 0 <= k < |chunks| ==> DecryptChunk(ce, inst, chunks[k]).Normal?
    ensures DecryptAll(ce, decoder, chunks).Normal?
  {
    if chunks != [] {
      var front := chunks[..|chunks| - 1];
      forall inst: Instance, k | 0 <= k < |front|
        ensures DecryptChunk(ce, inst, front[k]).Normal?
      {
        assert front[k] == chunks[k];
      }
      DecryptAllTotal(ce, decoder, front);
      var before := DecryptAll(ce, decoder, front);
      assert DecryptChunk(ce, before.value.1, chunks[|chunks| - 1]).Normal?;
    }
  }

  /** When no chunk fills the buffer, the decoded output is exactly
      `cipherBlock` bytes shorter per chunk than what was read. */
  lemma {:induction false} DecryptAllLength(ce: ChunkEngine, decoder: Instance, chunks: seq<seq<Byte>>)
    requires InPlace(ce)
    requires forall i :: 0 <= i < |chunks| ==> |chunks[i]| != BufferSize
    requires DecryptAll(ce, decoder, chunks).Normal?
    ensures |DecryptAll(ce, decoder, chunks).value.0| == TotalLength(chunks) - |chunks| * ce.cipherBlockBytes
  {
    if chunks != [] {
      DecryptAllLength(ce, decoder, chunks[..|chunks| - 1]);
    }
  }

  /** One pass of the decode loop on the `bytesRead` bytes at the head of
      `buffer`. */
  method DecryptOne(ce: ChunkEngine, decoder: Instance, buffer: array<Byte>, bytesRead: nat) returns (r: Outcome<(seq<Byte>, Instance)>)
    requires InPlace(ce) && buffer.Length == BufferSize && bytesRead <= BufferSize
    ensures r == DecryptChunk(ce, decoder, buffer[..bytesRead])
  {
    if bytesRead == buffer.Length {
      assert buffer[..] == buffer[..bytesRead];
      var (decoded, after) := ce.decryptChunk(decoder, buffer[..]);
      if decoded.None? {
        return Thrown(NullPointer);
      }
      return Normal((decoded.value, after));
    }
    var buffBytes := bytesRead - ce.cipherBlockBytes;
    if buffBytes < 0 {
      return Thrown(NegativeArraySize);
    }
    var output := new Byte[buffBytes];
    var (decryptError, decoded, after) := ce.decryptChunkInto(decoder, buffer[..bytesRead], buffBytes);
    ArrayCopy(decoded, 0, output, 0, buffBytes);
    if decryptError < 0 {
      return Thrown(IllegalArgument);
    }
    assert output[..] == decoded;
    r := Normal((output[..], after));
  }

  /** The decode loop of `main` over the encoded file's chunks. */
  method DecryptChunks(ce: ChunkEngine, decoder: Instance, chunks: seq<seq<Byte>>) returns (r: Outcome<(seq<Byte>, Instance)>)
    requires InPlace(ce) && ValidReads(chunks)
    ensures r == DecryptAll(ce, decoder, chunks)
  {
    var buffer := new Byte[BufferSize];
    var written: seq<Byte> := [];
    var current := decoder;
    var i := 0;
    while i < |chunks|
      invariant 0 <= i <= |chunks|
      invariant DecryptAll(ce, decoder, chunks[..i]) == Normal((written, current))
    {
      var bytesRead := |chunks[i]|;
      ArrayCopy(chunks[i], 0, buffer, 0, bytesRead);
      assert buffer[..bytesRead] == chunks[i];
      assert chunks[..i + 1][..i] == chunks[..i];
      var step := DecryptOne(ce, current, buffer, bytesRead);
      if step.Thrown? {
        DecryptAllStopped(ce, decoder, chunks, i + 1);
        assert chunks[..|chunks|] == chunks;
        return Thrown(step.exception);
      }
      written, current := written + step.value.0, step.value.1;
      i := i + 1;
    }
    assert chunks[..|chunks|] == chunks;
    r := Normal((written, current));
  }

  /** The final decoded chunk as written: null or empty becomes empty. */
  function FinalChunk(arr: Option<seq<Byte>>): (r: seq<Byte>)
    ensures arr.Some? ==> r == arr.value
    ensures arr.None? ==> r == []
  {
    if arr.None? || |arr.value| <= 0 then [] else arr.value
  }
}
