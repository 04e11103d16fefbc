/** The upload-name helpers: the extension whitelist and the construction of
    a time-stamped file name inside the upload directory. The current time
    is a parameter. */
module FileProcessor {
  import opened PyText
  import opened Paths

  /** `ALLOWED_EXTENSIONS`. */
  const AllowedExtensions: set<string> := {".xlsx", ".xls", ".pptx", ".xlsb"}

  /** `is_allowed_file`: the lower-cased suffix of the name is whitelisted. */
  predicate IsAllowedFile(filename: string) {
    LowerAscii(Suffix(Name(Parse(filename)))) in AllowedExtensions
  }

  /** A whitelisted extension is a dot and three or four letters, the first an `x` or a `p`. */
  lemma {:induction false} AllowedExtensionShape(e: string)
    requires e in AllowedExtensions
    ensures 4 <= |e| <= 5 && e[0] == '.' && (e[1] == 'x' || e[1] == 'p')
  {
  }

  /** A wall-clock time as `datetime.now()` hands it over. */
  datatype DateTime = DateTime(year: nat, month: nat, day: nat, hour: nat, minute: nat, second: nat)

  /** The times `strftime("%Y...")` writes with four year digits. */
  predicate ValidTime(t: DateTime) {
    && 1000 <= t.year <= 9999 && 1 <= t.month <= 12 && 1 <= t.day <= 31
    && t.hour <= 23 && t.minute <= 59 && t.second <= 59
  }

  /** A field of `width` digits. */
  function Field(n: nat, width: nat): (s: string)
    requires width >= 1 && n < Pow10(width)
    ensures |s| == width && forall k :: 0 <= k < |s| ==> IsDigit(s[k])
  {
    DecimalLength(n, width, Pow10(width));
    PadDecimal(n, width)
  }

  /** `strftime("%Y%m%d_%H%M%S")`. */
  function FormatStamp(t: DateTime): (s: string)
    requires ValidTime(t)
    ensures |s| == 15 && s[8] == '_'
    ensures forall k :: 0 <= k < |s| && k != 8 ==> IsDigit(s[k])
  {
    Field(t.year, 4) + Field(t.month, 2) + Field(t.day, 2) + "_"
      + Field(t.hour, 2) + Field(t.minute, 2) + Field(t.second, 2)
  }

  /** Reading the fields back from a stamp. */
  function ParseStamp(s: string): DateTime
    requires |s| == 15 && forall k :: 0 <= k < |s| && k != 8 ==> IsDigit(s[k])
  {
    DateTime(DecimalValue(s[0..4]), DecimalValue(s[4..6]), DecimalValue(s[6..8]),
             DecimalValue(s[9..11]), DecimalValue(s[11..13]), DecimalValue(s[13..15]))
  }

  /** The stamp determines the time it was made from. */
  lemma {:induction false} StampRoundTrip(t: DateTime)
    requires ValidTime(t)
    ensures ParseStamp(FormatStamp(t)) == t
  {
    var y, mo, d := Field(t.year, 4), Field(t.month, 2), Field(t.day, 2);
    var h, mi, se := Field(t.hour, 2), Field(t.minute, 2), Field(t.second, 2);
    var s := FormatStamp(t);
    assert s == y + mo + d + "_" + h + mi + se;
    SliceOfConcat([], y, mo + d + "_" + h + mi + se);
    SliceOfConcat(y, mo, d + "_" + h + mi + se);
    SliceOfConcat(y + mo, d, "_" + h + mi + se);
    SliceOfConcat(y + mo + d + "_", h, mi + se);
    SliceOfConcat(y + mo + d + "_" + h, mi, se);
    SliceOfConcat(y + mo + d + "_" + h + mi, se, []);
    assert s[0..4] == y && s[4..6] == mo && s[6..8] == d;
    assert s[9..11] == h && s[11..13] == mi && s[13..15] == se;
    PadDecimalValue(t.year, 4);
    PadDecimalValue(t.month, 2);
    PadDecimalValue(t.day, 2);
    PadDecimalValue(t.hour, 2);
    PadDecimalValue(t.minute, 2);
    PadDecimalValue(t.second, 2);
  }

  /** The middle piece of a concatenation is the slice at its offset. */
  lemma {:induction false} SliceOfConcat(a: string, b: string, c: string)
    ensures (a + b + c)[|a|..|a| + |b|] == b
  {
  }

  /** A stamp holds no dot and no slash. */
  lemma {:induction false} StampHasNoDotOrSlash(t: DateTime)
    requires ValidTime(t)
    ensures '.' !in FormatStamp(t) && '/' !in FormatStamp(t)
  {
    var s := FormatStamp(t);
    forall k | 0 <= k < |s|
      ensures s[k] != '.' && s[k] != '/'
    {
      if k != 8 {
        assert IsDigit(s[k]);
      }
    }
  }

  /** The name `create_unique_filename` builds: stem, `_`, stamp, suffix. */
  function UniqueName(originalFilename: string, now: DateTime): (u: string)
    requires ValidTime(now)
    ensures IsComponent(u)
  {
    var name := Name(Parse(originalFilename));
    var u := Stem(name) + "_" + FormatStamp(now) + Suffix(name);
    assert u[|Stem(name)|] == '_';
    assert '/' !in u by {
      StampHasNoDotOrSlash(now);
      assert name == Stem(name) + Suffix(name);
      assert '/' !in name by {
        if |Parse(originalFilename).parts| > 0 {
          assert name == Parse(originalFilename).parts[|Parse(originalFilename).parts| - 1];
        }
      }
      forall k | 0 <= k < |u|
        ensures u[k] != '/'
      {
        if k < |Stem(name)| {
          assert u[k] == name[k];
        } else if k > |Stem(name)| + 15 {
          assert u[k] == Suffix(name)[k - |Stem(name)| - 16];
          assert u[k] == name[k - 16];
        } else if k > |Stem(name)| {
          assert u[k] == FormatStamp(now)[k - |Stem(name)| - 1];
        }
      }
    }
    u
  }

  /** `create_unique_filename(original_filename, directory)` at time `now`:
      the new file lies directly in `directory`, whatever directories the
      original name mentions. */
  function CreateUniqueFilename(originalFilename: string, directory: PathValue, now: DateTime): (p: PathValue)
    requires ValidTime(now)
    ensures p.root == directory.root && |p.parts| == |directory.parts| + 1
    ensures p.parts[..|directory.parts|] == directory.parts
    ensures Name(p) == UniqueName(originalFilename, now)
  {
    Child(directory, UniqueName(originalFilename, now))
  }

  /** The new name keeps the original's stem, stamp and suffix apart: a
      name with a suffix keeps it, and its stem is the old stem, `_` and the
      stamp. */
  lemma {:induction false} UniqueNameKeepsSuffix(originalFilename: string, now: DateTime)
    requires ValidTime(now)
    requires Suffix(Name(Parse(originalFilename))) != ""
    ensures var name := Name(Parse(originalFilename));
      && Suffix(UniqueName(originalFilename, now)) == Suffix(name)
      && Stem(UniqueName(originalFilename, now)) == Stem(name) + "_" + FormatStamp(now)
  {
    var name := Name(Parse(originalFilename));
    var suf := Suffix(name);
    var stem := Stem(name);
    var i := LastIndexOf(name, '.');
    assert suf == name[i..];
    forall k | 1 <= k < |suf|
      ensures suf[k] != '.'
    {
      assert suf[k] == name[i + k];
    }
    SuffixOfAppended(stem + "_" + FormatStamp(now), suf);
  }

  /** The whitelist gives the same answer on the new path as on the original
      name: a whitelisted suffix is kept, and a name without a suffix gets
      none or one that runs into the stamp, which is never whitelisted. */
  lemma {:induction false} UniqueFilenameAllowedIff(originalFilename: string, directory: PathValue, now: DateTime)
    requires ValidTime(now) && WellFormed(directory)
    ensures IsAllowedFile(Str(CreateUniqueFilename(originalFilename, directory, now)))
            == IsAllowedFile(originalFilename)
  {
    var p := CreateUniqueFilename(originalFilename, directory, now);
    var u := UniqueName(originalFilename, now);
    var name := Name(Parse(originalFilename));
    assert WellFormed(p) by {
      forall k | 0 <= k < |p.parts|
        ensures IsComponent(p.parts[k])
      {
        if k < |directory.parts| {
          assert p.parts[k] == p.parts[..|directory.parts|][k];
        }
      }
    }
    ParseStr(p);
    if Suffix(name) != "" {
      UniqueNameKeepsSuffix(originalFilename, now);
    } else {
      var suf := Suffix(u);
      if suf != "" {
        assert |suf| >= 16 by {
          var stamp := FormatStamp(now);
          StampHasNoDotOrSlash(now);
          assert u == Stem(name) + "_" + stamp by { assert name == Stem(name) + Suffix(name); }
        }
        forall e | e in AllowedExtensions
          ensures LowerAscii(suf) != e
        {
          AllowedExtensionShape(e);
        }
      }
    }
  }

  /** For a plain file name the whitelist looks at that name's own suffix. */
  lemma {:induction false} AllowedComponent(filename: string)
    requires IsComponent(filename)
    ensures IsAllowedFile(filename) <==> LowerAscii(Suffix(filename)) in AllowedExtensions
  {
    ParseSingle(filename);
  }

  /** A file name made of a stem and one extension is judged by that
      extension alone, lower-cased. */
  lemma {:induction false} ExtensionDecides(stem: string, ext: string)
    requires stem != "" && '/' !in stem
    requires |ext| >= 2 && ext[0] == '.' && '/' !in ext
    requires forall k :: 1 <= k < |ext| ==> ext[k] != '.'
    ensures IsAllowedFile(stem + ext) <==> LowerAscii(ext) in AllowedExtensions
  {
    var name := stem + ext;
    assert '/' !in name by {
      forall k | 0 <= k < |name|
        ensures name[k] != '/'
      {
        if k >= |stem| {
          assert name[k] == ext[k - |stem|];
        }
      }
    }
    assert name != "." by { assert |name| >= 3; }
    AllowedComponent(name);
    SuffixOfAppended(stem, ext);
  }

  /** An upper-case extension is accepted: the check ignores case. */
  lemma {:induction false} UpperCaseAccepted(stem: string)
    requires stem != "" && '/' !in stem
    ensures IsAllowedFile(stem + ".XLSX")
  {
    ExtensionDecides(stem, ".XLSX");
    assert LowerAscii(".XLSX") == ".xlsx";
  }

  /** A `.txt` file is rejected. */
  lemma {:induction false} TextFileRejected(stem: string)
    requires stem != "" && '/' !in stem
    ensures !IsAllowedFile(stem + ".txt")
  {
    ExtensionDecides(stem, ".txt");
    assert LowerAscii(".txt")[1] == 't';
    if LowerAscii(".txt") in AllowedExtensions {
      AllowedExtensionShape(LowerAscii(".txt"));
    }
  }

  /** A name without a dot is rejected. */
  lemma {:induction false} NoDotRejected(name: string)
    requires IsComponent(name) && '.' !in name
    ensures !IsAllowedFile(name)
  {
    AllowedComponent(name);
    assert LowerAscii("") == "";
  }
}
