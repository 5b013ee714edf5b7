/**
 * wicked_zerg_challenger/tools/fix_file_encodings.py: its own copy of the
 * declaration check and of the insertion transform.
 */
module FixEncodings {
  import opened PyText
  import opened SeqUtil
  import AddEncoding

  /** `has_encoding_declaration`: some line among the first two declares UTF-8. */
  predicate HasEncodingDeclaration(content: string) {
    var lines := Take(Split(content), 2);
    exists k :: 0 <= k < |lines| && DeclaresUtf8(lines[k])
  }

  /** Python's `lines.insert(i, x)`: an index past the end appends. */
  function Insert(lines: seq<string>, i: nat, x: string): (r: seq<string>)
    ensures |r| == |lines| + 1
    ensures r[Min(i, |lines|)] == x
    ensures forall k :: 0 <= k < Min(i, |lines|) ==> r[k] == lines[k]
    ensures forall k :: Min(i, |lines|) <= k < |lines| ==> r[k + 1] == lines[k]
  {
    var j := Min(i, |lines|);
    lines[..j] + [x] + lines[j..]
  }

  /**
   * `add_encoding_declaration`. Both arms of the `lines[1].strip()` test
   * insert at index 1; `filePath` is never read.
   */
  function AddEncodingDeclaration(content: string, filePath: string): string {
    if HasEncodingDeclaration(content) then content
    else if StartsWith(content, "#!") then
      var lines := Split(content);
      var inserted :=
        if |lines| > 0 then
          if |lines| > 1 && HasNonSpace(lines[1]) then Insert(lines, 1, Utf8Declaration)
          else Insert(lines, 1, Utf8Declaration)
        else lines;
      Join(inserted)
    else Utf8Declaration + [Newline] + content
  }

  /** The two tools' checks are the same predicate. */
  lemma SameCheck(content: string)
    ensures HasEncodingDeclaration(content) <==> AddEncoding.HasEncoding(content)
  {
    var lines := Take(Split(content), 2);
    if HasEncodingDeclaration(content) {
      var k :| 0 <= k < |lines| && DeclaresUtf8(lines[k]);
      AddEncoding.AnyLineDeclaresAt(lines, k);
    }
    if AddEncoding.HasEncoding(content) {
      var k := AddEncoding.AnyLineDeclaresWitness(lines);
    }
  }

  /** For every content and path, this tool's transform equals `add_encoding`. */
  lemma SameTransform(content: string, filePath: string)
    ensures AddEncodingDeclaration(content, filePath) == AddEncoding.AddEncoding(content)
  {
    SameCheck(content);
    var lines := Split(content);
    assert Insert(lines, 1, Utf8Declaration) == AddEncoding.AfterShebang(lines);
  }

  /** Already declared content comes back unchanged, and the transform is idempotent. */
  lemma FixIdempotent(content: string, filePath: string)
    ensures HasEncodingDeclaration(content) ==> AddEncodingDeclaration(content, filePath) == content
    ensures var once := AddEncodingDeclaration(content, filePath);
      HasEncodingDeclaration(once) && AddEncodingDeclaration(once, filePath) == once
  {
    var once := AddEncodingDeclaration(content, filePath);
    SameTransform(content, filePath);
    SameTransform(once, filePath);
    AddEncoding.AddedIsDeclared(content);
    AddEncoding.AddEncodingIdempotent(content);
    SameCheck(once);
  }
}
