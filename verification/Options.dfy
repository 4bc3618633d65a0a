/**
Options of a tofu invocation and the generated variable files.

An option is a closure that appends to the arguments and to the variable files of the
invocation; here it is a value, and Options.Use runs it.
*/
module Options {
  import opened Common

  const VAR_FILE_PREFIX := "crossplane-provider-opentofu-"

  datatype FileFormat = Unknown | HCL | JSON

  datatype VarFile = VarFile(data: Bytes, filename: string)

  datatype TofuOption =
    | WithArgs(v: seq<string>)
    | WithVar(key: string, val: string)
    | WithVarFile(data: Bytes, format: FileFormat)

  // ---- Decimal numbers (strconv.Itoa) -------------------------------------------------

  function Digit(d: nat): char
    requires d < 10
  {
    '0' + d as char
  }

  function Itoa(n: nat): (s: string)
    ensures |s| > 0
    ensures forall i :: 0 <= i < |s| ==> '0' <= s[i] <= '9'
  {
    if n < 10 then [Digit(n)] else Itoa(n / 10) + [Digit(n % 10)]
  }

  function Atoi(s: string): nat
    requires forall i :: 0 <= i < |s| ==> '0' <= s[i] <= '9'
  {
    if s == "" then 0 else 10 * Atoi(s[..|s| - 1]) + (s[|s| - 1] as int - '0' as int)
  }

  lemma {:induction false} AtoiInvertsItoa(n: nat)
    ensures Atoi(Itoa(n)) == n
  {
    if n < 10 {
      assert [Digit(n)][..0] == "";
    } else {
      AtoiInvertsItoa(n / 10);
      assert Itoa(n)[..|Itoa(n)| - 1] == Itoa(n / 10);
    }
  }

  // ---- File names ---------------------------------------------------------------------

  function FileName(index: nat, format: FileFormat): string {
    VAR_FILE_PREFIX + Itoa(index) + ".tfvars" + (if format == JSON then ".json" else "")
  }

  function UntilDot(s: string): string {
    if s == "" || s[0] == '.' then "" else [s[0]] + UntilDot(s[1..])
  }

  lemma {:induction false} UntilDotOfDigits(digits: string, rest: string)
    requires forall i :: 0 <= i < |digits| ==> '0' <= digits[i] <= '9'
    ensures UntilDot(digits + "." + rest) == digits
  {
    var s := digits + "." + rest;
    if digits == "" {
      assert s[0] == '.';
    } else {
      assert s[0] == digits[0] && s[1..] == digits[1..] + "." + rest;
      UntilDotOfDigits(digits[1..], rest);
    }
  }

  function Extension(format: FileFormat): string {
    "tfvars" + (if format == JSON then ".json" else "")
  }

  /** The number and the extension can be read back from a generated name. */
  lemma FileNameParts(i: nat, f: FileFormat)
    ensures FileName(i, f)[|VAR_FILE_PREFIX|..] == Itoa(i) + "." + Extension(f)
    ensures UntilDot(FileName(i, f)[|VAR_FILE_PREFIX|..]) == Itoa(i)
    ensures |FileName(i, f)| == |VAR_FILE_PREFIX| + |Itoa(i)| + 1 + |Extension(f)|
  {
    assert ".tfvars" == "." + "tfvars";
    assert FileName(i, f) == VAR_FILE_PREFIX + (Itoa(i) + "." + Extension(f));
    UntilDotOfDigits(Itoa(i), Extension(f));
  }

  /** Files with different numbers never share a name, whatever their formats. */
  lemma FileNamesDistinct(i: nat, f: FileFormat, j: nat, g: FileFormat)
    ensures FileName(i, f) == FileName(j, g) <==> i == j && (f == JSON <==> g == JSON)
  {
    FileNameParts(i, f);
    FileNameParts(j, g);
    AtoiInvertsItoa(i);
    AtoiInvertsItoa(j);
  }

  /** tofu decides by the suffix whether a variable file is JSON. */
  predicate IsJSONName(name: string) {
    HasSuffix(name, ".json")
  }

  lemma FormatFromName(i: nat, f: FileFormat)
    ensures IsJSONName(FileName(i, f)) <==> f == JSON
  {
    var name := FileName(i, f);
    var body := VAR_FILE_PREFIX + Itoa(i);
    if f == JSON {
      assert name == body + ".tfvars" + ".json";
      assert name[|name| - 5..] == ".json";
    } else {
      assert name == body + ".t" + "fvars";
      assert name[|name| - 5..] == "fvars";
      assert "fvars"[0] != ".json"[0];
    }
  }

  // ---- Running the options ------------------------------------------------------------

  /** The variable files after running a list of options. */
  function VarFilesOf(os: seq<TofuOption>): seq<VarFile> {
    if os == [] then []
    else
      var before, last := VarFilesOf(os[..|os| - 1]), os[|os| - 1];
      if last.WithVarFile?
      then before + [VarFile(last.data, FileName(|before|, last.format))]
      else before
  }

  /** What one option appends to the arguments when `n` variable files came before it. */
  function ArgsOfOne(o: TofuOption, n: nat): seq<string> {
    match o
    case WithArgs(v) => v
    case WithVar(key, val) => ["-var=" + key + "=" + val]
    case WithVarFile(_, format) => ["-var-file=" + FileName(n, format)]
  }

  function ArgsOf(os: seq<TofuOption>): seq<string> {
    if os == [] then []
    else
      var before := os[..|os| - 1];
      ArgsOf(before) + ArgsOfOne(os[|os| - 1], |VarFilesOf(before)|)
  }

  /** The fields that the option closures append to. */
  class Invocation {
    var args: seq<string>
    var varFiles: seq<VarFile>

    constructor ()
      ensures args == [] && varFiles == []
    {
      args, varFiles := [], [];
    }

    method Use(o: TofuOption)
      modifies this
      ensures args == old(args) + ArgsOfOne(o, |old(varFiles)|)
      ensures varFiles == if o.WithVarFile? then old(varFiles) + [VarFile(o.data, FileName(|old(varFiles)|, o.format))]
                          else old(varFiles)
    {
      match o {
        case WithArgs(v) => args := args + v;
        case WithVar(key, val) => args := args + ["-var=" + key + "=" + val];
        case WithVarFile(data, format) =>
          var filename := VAR_FILE_PREFIX + Itoa(|varFiles|) + ".tfvars";
          if format == JSON {
            filename := filename + ".json";
          }
          assert filename == FileName(|varFiles|, format);
          args := args + ["-var-file=" + filename];
          varFiles := varFiles + [VarFile(data, filename)];
      }
    }

    method UseAll(os: seq<TofuOption>)
      requires args == [] && varFiles == []
      modifies this
      ensures args == ArgsOf(os) && varFiles == VarFilesOf(os)
    {
      var i := 0;
      while i < |os|
        invariant 0 <= i <= |os|
        invariant args == ArgsOf(os[..i]) && varFiles == VarFilesOf(os[..i])
      {
        assert os[..i + 1][..i] == os[..i];
        Use(os[i]);
        i := i + 1;
      }
      assert os[..i] == os;
    }
  }

  lemma {:induction false} PrefixOptions(os: seq<TofuOption>, k: nat)
    requires k <= |os|
    ensures VarFilesOf(os[..k]) <= VarFilesOf(os)
    ensures ArgsOf(os[..k]) <= ArgsOf(os)
    decreases |os| - k
  {
    if k == |os| {
      assert os[..k] == os;
    } else {
      PrefixOptions(os, k + 1);
      assert os[..k + 1][..k] == os[..k];
      assert VarFilesOf(os[..k]) <= VarFilesOf(os[..k + 1]);
      assert ArgsOf(os[..k]) <= ArgsOf(os[..k + 1]);
    }
  }

  /**
  The argument generated for a variable file names the file that carries its data: if the
  option at p is the n-th variable file, the n-th file holds its bytes, and the argument
  appended at its turn is "-var-file=" and that file's name.
  */
  lemma ArgumentNamesItsFile(os: seq<TofuOption>, p: nat)
    requires p < |os| && os[p].WithVarFile?
    ensures var n := |VarFilesOf(os[..p])|; var at := |ArgsOf(os[..p])|;
      && n < |VarFilesOf(os)| && at < |ArgsOf(os)|
      && VarFilesOf(os)[n].data == os[p].data
      && ArgsOf(os)[at] == "-var-file=" + VarFilesOf(os)[n].filename
      && (IsJSONName(VarFilesOf(os)[n].filename) <==> os[p].format == JSON)
  {
    PrefixOptions(os, p + 1);
    assert os[..p + 1][..p] == os[..p];
    FormatFromName(|VarFilesOf(os[..p])|, os[p].format);
  }

  /** A name that some variable file could have. */
  ghost predicate Generated(name: string) {
    exists n: nat, f: FileFormat :: name == FileName(n, f)
  }

  lemma {:induction false} VarFileNumbered(os: seq<TofuOption>, i: nat)
    requires i < |VarFilesOf(os)|
    ensures exists f :: VarFilesOf(os)[i].filename == FileName(i, f)
    ensures Generated(VarFilesOf(os)[i].filename)
  {
    var before, last := VarFilesOf(os[..|os| - 1]), os[|os| - 1];
    if i < |before| {
      VarFileNumbered(os[..|os| - 1], i);
    } else {
      assert VarFilesOf(os)[i].filename == FileName(i, last.format);
    }
  }

  predicate DistinctNames(vfs: seq<VarFile>) {
    forall i, j :: 0 <= i < j < |vfs| ==> vfs[i].filename != vfs[j].filename
  }

  /** The generated names are pairwise distinct for every list of options. */
  lemma VarFileNamesDistinct(os: seq<TofuOption>)
    ensures DistinctNames(VarFilesOf(os))
  {
    var vfs := VarFilesOf(os);
    forall i, j | 0 <= i < j < |vfs|
      ensures vfs[i].filename != vfs[j].filename
    {
      VarFileNumbered(os, i);
      VarFileNumbered(os, j);
      var f :| vfs[i].filename == FileName(i, f);
      var g :| vfs[j].filename == FileName(j, g);
      FileNamesDistinct(i, f, j, g);
    }
  }

  // ---- Writing the variable files -----------------------------------------------------

  /**
  The write loop: files are written in order until one of them cannot be, in which case
  the ones before it stay written. `denied` holds the names that cannot be written.
  */
  function WriteAll(files: Files, vfs: seq<VarFile>, denied: set<string>): (Files, bool)
    decreases |vfs|
  {
    if vfs == [] then (files, true)
    else if vfs[0].filename in denied then (files, false)
    else WriteAll(files[vfs[0].filename := vfs[0].data], vfs[1..], denied)
  }

  lemma {:induction false} WriteAllFrame(files: Files, vfs: seq<VarFile>, denied: set<string>, name: string)
    requires forall i :: 0 <= i < |vfs| ==> vfs[i].filename != name
    ensures var after := WriteAll(files, vfs, denied).0;
      (name in after <==> name in files) && (name in files ==> after[name] == files[name])
    decreases |vfs|
  {
    if vfs != [] && vfs[0].filename !in denied {
      assert forall i :: 0 <= i < |vfs[1..]| ==> vfs[1..][i] == vfs[i + 1];
      WriteAllFrame(files[vfs[0].filename := vfs[0].data], vfs[1..], denied, name);
    }
  }

  /** After the loop, reading a named file returns exactly the bytes supplied for it. */
  lemma {:induction false} WriteAllRead(files: Files, vfs: seq<VarFile>, denied: set<string>, i: nat)
    requires DistinctNames(vfs) && i < |vfs|
    requires WriteAll(files, vfs, denied).1
    ensures var after := WriteAll(files, vfs, denied).0;
      vfs[i].filename in after && after[vfs[i].filename] == vfs[i].data
    decreases |vfs|
  {
    assert forall k :: 0 <= k < |vfs[1..]| ==> vfs[1..][k] == vfs[k + 1];
    var next := files[vfs[0].filename := vfs[0].data];
    if i == 0 {
      WriteAllFrame(next, vfs[1..], denied, vfs[0].filename);
    } else {
      WriteAllRead(next, vfs[1..], denied, i - 1);
    }
  }

  /** The loop gets to the end exactly when every file can be written. */
  lemma {:induction false} WriteAllSucceeds(files: Files, vfs: seq<VarFile>, denied: set<string>)
    ensures WriteAll(files, vfs, denied).1 <==> forall i :: 0 <= i < |vfs| ==> vfs[i].filename !in denied
    decreases |vfs|
  {
    if vfs != [] {
      assert forall i :: 0 <= i < |vfs[1..]| ==> vfs[1..][i] == vfs[i + 1];
      if vfs[0].filename !in denied {
        WriteAllSucceeds(files[vfs[0].filename := vfs[0].data], vfs[1..], denied);
        assert forall i :: 0 < i < |vfs| ==> vfs[i] == vfs[1..][i - 1];
      }
    }
  }

  predicate Holds(files: Files, vfs: seq<VarFile>) {
    forall i :: 0 <= i < |vfs| ==> vfs[i].filename in files && files[vfs[i].filename] == vfs[i].data
  }

  lemma WriteAllHolds(files: Files, os: seq<TofuOption>, denied: set<string>)
    requires WriteAll(files, VarFilesOf(os), denied).1
    ensures Holds(WriteAll(files, VarFilesOf(os), denied).0, VarFilesOf(os))
  {
    VarFileNamesDistinct(os);
    forall i | 0 <= i < |VarFilesOf(os)|
      ensures var vf := VarFilesOf(os)[i]; var after := WriteAll(files, VarFilesOf(os), denied).0;
        vf.filename in after && after[vf.filename] == vf.data
    {
      WriteAllRead(files, VarFilesOf(os), denied, i);
    }
  }

  /** Writing again what is already there changes nothing. */
  lemma {:induction false} WriteAllStable(files: Files, vfs: seq<VarFile>, denied: set<string>)
    requires Holds(files, vfs)
    ensures WriteAll(files, vfs, denied).0 == files
    decreases |vfs|
  {
    if vfs != [] && vfs[0].filename !in denied {
      assert files[vfs[0].filename := vfs[0].data] == files;
      assert forall i :: 0 <= i < |vfs[1..]| ==> vfs[1..][i] == vfs[i + 1];
      WriteAllStable(files, vfs[1..], denied);
    }
  }
}
