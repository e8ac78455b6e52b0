/** The redactor (dharahil/redaction.py): copies a mapping of tool arguments, masking the
    string values that look secret, and reports which keys it masked and why. */
module Redaction {
  import opened Wrappers
  import opened Json

  /** Key names whose string values are always masked, compared after lower-casing. */
  const SecretKeys: set<string> := {"api_key", "apikey", "token", "password", "authorization", "cookie"}

  /** The token that replaces a masked value. */
  const Mask: string := "***REDACTED***"

  function LowerChar(c: char): char {
    if 'A' <= c <= 'Z' then (c as int + 32) as char else c
  }

  /** `str.lower` on ASCII letters; every other character is kept. */
  function Lower(s: string): (r: string)
    ensures |r| == |s| && forall i :: 0 <= i < |s| ==> r[i] == LowerChar(s[i])
  {
    seq(|s|, i requires 0 <= i < |s| => LowerChar(s[i]))
  }

  /** `is_secret_key`: case-insensitive membership in `SecretKeys`. */
  predicate IsSecretKey(key: string) {
    Lower(key) in SecretKeys
  }

  /** The character class `[A-Za-z0-9]`. */
  predicate IsAlnum(c: char) {
    'A' <= c <= 'Z' || 'a' <= c <= 'z' || '0' <= c <= '9'
  }

  /** The `n` characters of `s` starting at `i` are all ASCII alphanumerics. */
  predicate AlnumRunAt(s: string, i: nat, n: nat)
    requires i + n <= |s|
  {
    forall j :: i <= j < i + n ==> IsAlnum(s[j])
  }

  /** `s` contains a contiguous run of at least `n` ASCII alphanumerics, which is when
      `re.search("[A-Za-z0-9]{n,}", s)` finds a match. */
  predicate HasAlnumRun(s: string, n: nat) {
    exists i :: 0 <= i <= |s| - n && AlnumRunAt(s, i, n)
  }

  /** The mask token has no run of 12 alphanumerics: its alphanumeric middle is 8 long. */
  lemma MaskHasNoLongRun()
    ensures |Mask| == 14 && !HasAlnumRun(Mask, 12)
  {
    forall i | 0 <= i <= |Mask| - 12 ensures !AlnumRunAt(Mask, i, 12) {
      assert Mask[2] == '*' && !IsAlnum(Mask[2]);
    }
  }

  /** `mask_string`: a string longer than 12 characters holding a 12-character alphanumeric
      run becomes the mask token; every other string comes back unchanged. */
  function MaskString(value: string): (r: string)
    ensures r == value || r == Mask
    ensures r != value <==> |value| > 12 && HasAlnumRun(value, 12)
  {
    MaskHasNoLongRun();
    if |value| > 12 && HasAlnumRun(value, 12) then Mask else value
  }

  datatype Reason = SecretKey | HighEntropy

  /** The reason as the report spells it. */
  function ReasonName(r: Reason): string {
    match r
    case SecretKey => "secret_key"
    case HighEntropy => "high_entropy"
  }

  /** One entry of `report["fields"]`. */
  datatype ReportField = ReportField(key: string, reason: Reason)

  /** What one iteration of the loop in `redact` stores under `key`, and the reason it
      reports, if any. */
  function RedactEntry(key: string, value: Json): (Json, Option<Reason>) {
    match value
    case JStr(s) =>
      if IsSecretKey(key) then (JStr(Mask), Some(SecretKey))
      else
        var masked := MaskString(s);
        if masked != s then (JStr(masked), Some(HighEntropy)) else (value, None)
    case _ => (value, None)
  }

  /** The redacted copy: the same keys in the same order, each value redacted on its own. */
  function Redacted(data: Dict): (r: Dict)
    ensures |r| == |data|
  {
    if data == [] then []
    else
      var last := data[|data| - 1];
      Redacted(data[..|data| - 1]) + [(last.0, RedactEntry(last.0, last.1).0)]
  }

  /** The report: one entry per masked key, in the input's iteration order. */
  function ReportOf(data: Dict): seq<ReportField> {
    if data == [] then []
    else
      var last := data[|data| - 1];
      ReportOf(data[..|data| - 1]) +
        match RedactEntry(last.0, last.1).1
        case Some(why) => [ReportField(last.0, why)]
        case None => []
  }

  /** `redact(data)`: fills the copy and the report entry by entry, as the source's loop does. */
  method Redact(data: Dict) returns (redacted: Dict, report: seq<ReportField>)
    ensures redacted == Redacted(data)
    ensures report == ReportOf(data)
  {
    redacted, report := [], [];
    for i := 0 to |data|
      invariant redacted == Redacted(data[..i])
      invariant report == ReportOf(data[..i])
    {
      assert data[..i + 1][..i] == data[..i];
      var (key, value) := data[i];
      if value.JStr? {
        if IsSecretKey(key) {
          redacted := redacted + [(key, JStr(Mask))];
          report := report + [ReportField(key, SecretKey)];
        } else {
          var masked := MaskString(value.s);
          if masked != value.s {
            redacted := redacted + [(key, JStr(masked))];
            report := report + [ReportField(key, HighEntropy)];
          } else {
            redacted := redacted + [(key, value)];
          }
        }
      } else {
        redacted := redacted + [(key, value)];
      }
    }
    assert data[..|data|] == data;
  }

  /** Entry `i` of the copy has the input's key `i` and that entry's redacted value. */
  lemma {:induction false} RedactedAt(data: Dict, i: nat)
    requires i < |data|
    ensures Redacted(data)[i] == (data[i].0, RedactEntry(data[i].0, data[i].1).0)
    decreases |data|
  {
    if i < |data| - 1 {
      RedactedAt(data[..|data| - 1], i);
    }
  }

  /** The copy has exactly the input's keys, in the input's order. */
  lemma RedactedKeys(data: Dict)
    ensures Keys(Redacted(data)) == Keys(data)
  {
    forall i | 0 <= i < |data| ensures Keys(Redacted(data))[i] == Keys(data)[i] {
      RedactedAt(data, i);
    }
  }

  /** The three rules of the loop body: non-strings pass unreported; a string under a
      secret key becomes the mask token, reported as `secret_key`; any other string is
      masked and reported as `high_entropy` exactly when it is longer than 12 and holds
      a 12-character alphanumeric run, and is otherwise copied unreported. */
  lemma RedactEntryRules(key: string, value: Json)
    ensures !value.JStr? ==> RedactEntry(key, value) == (value, None)
    ensures value.JStr? && IsSecretKey(key) ==>
              RedactEntry(key, value) == (JStr(Mask), Some(SecretKey))
    ensures value.JStr? && !IsSecretKey(key) ==>
              (RedactEntry(key, value).1 == Some(HighEntropy) <==>
                 |value.s| > 12 && HasAlnumRun(value.s, 12))
    ensures value.JStr? && !IsSecretKey(key) && RedactEntry(key, value).1 == Some(HighEntropy) ==>
              RedactEntry(key, value).0 == JStr(Mask)
    ensures RedactEntry(key, value).1 == None ==> RedactEntry(key, value).0 == value
  {
  }

  /** Redacting what is already redacted changes nothing, because the mask token is
      neither a long alphanumeric run nor anything else the rules touch. */
  lemma RedactEntryIdempotent(key: string, value: Json)
    ensures RedactEntry(key, RedactEntry(key, value).0).0 == RedactEntry(key, value).0
  {
    MaskHasNoLongRun();
  }

  /** `redact` is idempotent on the copy it returns. */
  lemma RedactIdempotent(data: Dict)
    ensures Redacted(Redacted(data)) == Redacted(data)
  {
    var once := Redacted(data);
    forall i | 0 <= i < |data| ensures Redacted(once)[i] == once[i] {
      RedactedAt(data, i);
      RedactedAt(once, i);
      RedactEntryIdempotent(data[i].0, data[i].1);
    }
  }

  /** The report of a concatenation is the concatenation of the reports: entries follow
      the input's iteration order. */
  lemma {:induction false} ReportOfAppend(a: Dict, b: Dict)
    ensures ReportOf(a + b) == ReportOf(a) + ReportOf(b)
    decreases |b|
  {
    if b == [] {
      assert a + b == a;
    } else {
      var b' := b[..|b| - 1];
      assert (a + b)[..|a + b| - 1] == a + b';
      ReportOfAppend(a, b');
    }
  }

  /** A key is reported, with a reason, exactly when the loop body gives that reason for
      one of the input's entries under that key. */
  lemma {:induction false} ReportOfMembers(data: Dict, f: ReportField)
    ensures f in ReportOf(data) <==>
              exists i :: 0 <= i < |data| && data[i].0 == f.key &&
                          RedactEntry(data[i].0, data[i].1).1 == Some(f.reason)
    decreases |data|
  {
    if data != [] {
      var init := data[..|data| - 1];
      ReportOfMembers(init, f);
      if f in ReportOf(data) && f !in ReportOf(init) {
        var n := |data| - 1;
        assert data[n].0 == f.key && RedactEntry(data[n].0, data[n].1).1 == Some(f.reason);
      }
      if exists i :: 0 <= i < |data| && data[i].0 == f.key &&
                     RedactEntry(data[i].0, data[i].1).1 == Some(f.reason) {
        var i :| 0 <= i < |data| && data[i].0 == f.key &&
                 RedactEntry(data[i].0, data[i].1).1 == Some(f.reason);
        if i < |data| - 1 {
          assert init[i] == data[i];
        }
      }
    }
  }

  /** Every reported key is one of the input's keys. */
  lemma {:induction false} ReportKeysFromInput(data: Dict)
    ensures forall a :: 0 <= a < |ReportOf(data)| ==> ReportOf(data)[a].key in Keys(data)
    decreases |data|
  {
    if data != [] {
      var init := data[..|data| - 1];
      ReportKeysFromInput(init);
      assert forall k :: k in Keys(init) ==> k in Keys(data) by {
        forall k | k in Keys(init) ensures k in Keys(data) {
          var j :| 0 <= j < |init| && Keys(init)[j] == k;
          assert Keys(data)[j] == k;
        }
      }
      assert Keys(data)[|data| - 1] == data[|data| - 1].0;
    }
  }

  /** With distinct input keys (as in any Python dict) no key is reported twice. */
  lemma {:induction false} ReportKeysDistinct(data: Dict)
    requires DistinctKeys(data)
    ensures forall a, b :: 0 <= a < b < |ReportOf(data)| ==> ReportOf(data)[a].key != ReportOf(data)[b].key
    decreases |data|
  {
    if data != [] {
      var init := data[..|data| - 1];
      assert DistinctKeys(init);
      ReportKeysDistinct(init);
      ReportKeysFromInput(init);
      var lastKey := data[|data| - 1].0;
      forall j | 0 <= j < |init| ensures Keys(init)[j] != lastKey {
        assert init[j] == data[j];
      }
    }
  }
}
