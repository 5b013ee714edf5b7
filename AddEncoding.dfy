/**
 * wicked_zerg_challenger/tools/add_encoding_to_files.py: the encoding-declaration
 * check and the transform that inserts `# -*- coding: utf-8 -*-`.
 */
module AddEncoding {
  import opened PyText
  import opened SeqUtil

  /** The `for line in lines` scan with its early `return True`. */
  predicate AnyLineDeclares(lines: seq<string>) {
    |lines| > 0 && (DeclaresUtf8(lines[0]) || AnyLineDeclares(lines[1..]))
  }

  /** `has_encoding`: one of the first two lines carries a UTF-8 coding declaration. */
  predicate HasEncoding(content: string) {
    AnyLineDeclares(Take(Split(content), 2))
  }

  /** The lines of `content` with the declaration inserted after the first one. */
  function AfterShebang(lines: seq<string>): seq<string>
    requires |lines| >= 1
  {
    if |lines| > 1 then lines[..1] + [Utf8Declaration] + lines[1..]
    else lines + [Utf8Declaration]
  }

  /** `add_encoding`. */
  function AddEncoding(content: string): string {
    if HasEncoding(content) then content
    else if StartsWith(content, "#!") then Join(AfterShebang(Split(content)))
    else Utf8Declaration + [Newline] + content
  }

  /** A scan over lines finds a declaring line wherever it stands. */
  lemma {:induction false} AnyLineDeclaresAt(lines: seq<string>, k: nat)
    requires k < |lines| && DeclaresUtf8(lines[k])
    ensures AnyLineDeclares(lines)
  {
    if k > 0 {
      AnyLineDeclaresAt(lines[1..], k - 1);
    }
  }

  /** The scan succeeds only on a line that declares. */
  lemma {:induction false} AnyLineDeclaresWitness(lines: seq<string>) returns (k: nat)
    requires AnyLineDeclares(lines)
    ensures k < |lines| && DeclaresUtf8(lines[k])
  {
    if DeclaresUtf8(lines[0]) {
      k := 0;
    } else {
      var j := AnyLineDeclaresWitness(lines[1..]);
      k := j + 1;
    }
  }

  /**
   * When a declaration is added, exactly one line is inserted and the original
   * lines keep their order: after the shebang line, or in front of everything.
   */
  lemma InsertsOneLine(content: string)
    requires !HasEncoding(content)
    ensures StartsWith(content, "#!") ==>
      Split(AddEncoding(content)) == Split(content)[..1] + [Utf8Declaration] + Split(content)[1..]
    ensures !StartsWith(content, "#!") ==>
      AddEncoding(content) == Utf8Declaration + "\n" + content &&
      Split(AddEncoding(content)) == [Utf8Declaration] + Split(content)
  {
    DeclarationDeclares();
    var lines := Split(content);
    if StartsWith(content, "#!") {
      var ins := AfterShebang(lines);
      assert ins == lines[..1] + [Utf8Declaration] + lines[1..];
      assert forall k :: 0 <= k < |ins| ==> OneLine(ins[k]) by {
        forall k | 0 <= k < |ins| ensures OneLine(ins[k]) {
          if k > 1 { assert ins[k] == lines[k - 1]; }
        }
      }
      SplitJoin(ins);
    } else {
      SplitLeadingLine(Utf8Declaration, content);
    }
  }

  /** After `add_encoding`, `has_encoding` holds. */
  lemma AddedIsDeclared(content: string)
    ensures HasEncoding(AddEncoding(content))
  {
    DeclarationDeclares();
    if !HasEncoding(content) {
      InsertsOneLine(content);
      var out := Split(AddEncoding(content));
      var k := if StartsWith(content, "#!") then 1 else 0;
      assert Take(out, 2)[k] == Utf8Declaration;
      AnyLineDeclaresAt(Take(out, 2), k);
    }
  }

  /** `add_encoding` is idempotent. */
  lemma AddEncodingIdempotent(content: string)
    ensures AddEncoding(AddEncoding(content)) == AddEncoding(content)
  {
    AddedIsDeclared(content);
  }
}
