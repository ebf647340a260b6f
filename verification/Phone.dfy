/** Indian phone normalisation, and a phone's trip through the callback loop. */
module Phone {
  import opened Schema
  import opened Text

  predicate Separator(c: char) {
    IsSpace(c) || c == '(' || c == ')' || c == '-'
  }

  /** re.sub(r"[\s()-]", "", s) */
  function Compact(s: string): (compact: string)
    ensures forall c :: c in compact ==> !Separator(c)
  {
    if s == "" then ""
    else (if Separator(s[0]) then "" else [s[0]]) + Compact(s[1..])
  }

  /** str.isdigit of one character is a parameter: whatever table it is, it holds of the
      ASCII digits and of no separator and no plus sign. */
  ghost predicate DigitClass(isDigit: char -> bool) {
    && (forall c :: '0' <= c <= '9' ==> isDigit(c))
    && (forall c :: Separator(c) || c == '+' ==> !isDigit(c))
  }

  predicate AllDigits(isDigit: char -> bool, s: string) {
    s != "" && forall i :: 0 <= i < |s| ==> isDigit(s[i])
  }

  function WithoutPlus(s: string): string {
    if s != "" && s[0] == '+' then s[1..] else s
  }

  /** The checks on what is left without separators and plus sign. */
  function Accept(isDigit: char -> bool, compact: string): Option<string> {
    if !AllDigits(isDigit, compact) then None
    else
      var full := if |compact| == 10 then "91" + compact else compact;
      if |full| != 12 || full[..2] != "91" then None
      else if full[2] !in "6789" then None
      else Some(full)
  }

  /** None is PhoneNumberError("invalid_indian_phone"). */
  function Normalize(isDigit: char -> bool, phone: string): Option<string> {
    var raw := Strip(phone);
    if raw == "" then None else Accept(isDigit, WithoutPlus(Compact(raw)))
  }

  function E164(phone: string): string {
    var compact := Strip(phone);
    if compact != "" && compact[0] == '+' then compact else "+" + compact
  }

  /** A dialled number is the phone without the spaces around it, behind one plus sign. */
  lemma E164Adds(phone: string)
    ensures E164(phone) != "" && E164(phone)[0] == '+'
    ensures E164(phone)[1..] == WithoutPlus(Strip(phone)) && Trims(phone, Strip(phone))
  {
    StripTrims(phone);
  }

  // -------------------------------------------------------------- compaction

  lemma {:induction false} CompactAppend(a: string, b: string)
    ensures Compact(a + b) == Compact(a) + Compact(b)
  {
    if a == "" {
      assert a + b == b;
    } else {
      assert (a + b)[1..] == a[1..] + b;
      CompactAppend(a[1..], b);
    }
  }

  lemma {:induction false} CompactOfSeparators(s: string)
    requires forall c :: c in s ==> Separator(c)
    ensures Compact(s) == ""
  {
    if s != "" {
      assert s[0] in s;
      assert forall c :: c in s[1..] ==> c in s;
      CompactOfSeparators(s[1..]);
    }
  }

  lemma {:induction false} CompactDropsLeading(s: string)
    ensures Compact(DropLeading(s)) == Compact(s)
  {
    if s != "" && IsSpace(s[0]) {
      CompactDropsLeading(s[1..]);
    }
  }

  lemma {:induction false} CompactDropsTrailing(s: string)
    ensures Compact(DropTrailing(s)) == Compact(s)
  {
    if s != "" && IsSpace(s[|s| - 1]) {
      var front, last := s[..|s| - 1], [s[|s| - 1]];
      assert s == front + last && DropTrailing(s) == DropTrailing(front);
      CompactAppend(front, last);
      CompactOfSeparators(last);
      assert Compact(s) == Compact(front) + "" == Compact(front);
      CompactDropsTrailing(front);
    }
  }

  lemma {:induction false} CompactFixed(s: string)
    requires forall c :: c in s ==> !Separator(c)
    ensures Compact(s) == s
  {
    if s != "" {
      assert s[0] in s;
      assert forall c :: c in s[1..] ==> c in s;
      CompactFixed(s[1..]);
    }
  }

  // ---------------------------------------------------------------- theorems

  /** A ten-digit mobile number. */
  predicate Subscriber(isDigit: char -> bool, digits: string) {
    |digits| == 10 && AllDigits(isDigit, digits) && digits[0] in "6789"
  }

  lemma NormalizeSeesCompact(isDigit: char -> bool, phone: string)
    ensures Normalize(isDigit, phone) == Accept(isDigit, WithoutPlus(Compact(phone)))
  {
    CompactDropsLeading(phone);
    CompactDropsTrailing(DropLeading(phone));
  }

  lemma AcceptsExactly(isDigit: char -> bool, compact: string, key: string)
    requires DigitClass(isDigit)
    ensures Accept(isDigit, compact) == Some(key)
       <==> |key| == 12 && key[..2] == "91" && Subscriber(isDigit, key[2..]) && compact in {key, key[2..]}
  {
    if |compact| == 10 {
      assert ("91" + compact)[2..] == compact && ("91" + compact)[..2] == "91";
    } else if |compact| == 12 {
      assert compact[2..][0] == compact[2];
      if compact[..2] == "91" {
        assert compact[0] == compact[..2][0] == '9' && compact[1] == compact[..2][1] == '1';
        assert compact == compact[..2] + compact[2..];
        assert forall i :: 0 <= i < 12 ==> i < 2 || compact[i] == compact[2..][i - 2];
        assert AllDigits(isDigit, compact) <==> AllDigits(isDigit, compact[2..]);
      }
    }
    if |key| == 12 && key[..2] == "91" {
      assert key == "91" + key[2..];
    }
  }

  /** Exactly which inputs normalise, and to what: whatever is left without separators and
      one leading plus is the subscriber's ten digits, or 91 and those. */
  lemma NormalizesExactly(isDigit: char -> bool, phone: string, key: string)
    requires DigitClass(isDigit)
    ensures Normalize(isDigit, phone) == Some(key)
       <==> |key| == 12 && key[..2] == "91" && Subscriber(isDigit, key[2..])
            && WithoutPlus(Compact(phone)) in {key, key[2..]}
  {
    NormalizeSeesCompact(isDigit, phone);
    AcceptsExactly(isDigit, WithoutPlus(Compact(phone)), key);
  }

  /** Separators inserted anywhere change nothing, not even the error. */
  lemma SeparatorsDoNotMatter(isDigit: char -> bool, a: string, separators: string, b: string)
    requires forall c :: c in separators ==> IsSpace(c) || c in "()-"
    ensures Normalize(isDigit, a + separators + b) == Normalize(isDigit, a + b)
  {
    CompactAppend(a + separators, b);
    CompactAppend(a, separators);
    CompactAppend(a, b);
    CompactOfSeparators(separators);
    SameCompactSameKey(isDigit, a + separators + b, a + b);
  }

  lemma SameCompactSameKey(isDigit: char -> bool, p: string, q: string)
    requires Compact(p) == Compact(q)
    ensures Normalize(isDigit, p) == Normalize(isDigit, q)
  {
    NormalizeSeesCompact(isDigit, p);
    NormalizeSeesCompact(isDigit, q);
  }

  lemma {:induction false} CompactKeepsOthers(s: string, c: char)
    requires c in s && !Separator(c)
    ensures c in Compact(s)
  {
    if s[0] != c {
      assert s == [s[0]] + s[1..];
      CompactKeepsOthers(s[1..], c);
    }
  }

  /** .. and nothing else is overlooked: an accepted phone holds digits, spaces, parentheses,
      dashes and a plus sign only. */
  lemma NothingElseIsAccepted(isDigit: char -> bool, phone: string, c: char)
    requires DigitClass(isDigit) && Normalize(isDigit, phone).Some? && c in phone
    ensures isDigit(c) || IsSpace(c) || c in "()-" || c == '+'
  {
    if !IsSpace(c) && c !in "()-" {
      var compact := Compact(phone);
      CompactKeepsOthers(phone, c);
      NormalizeSeesCompact(isDigit, phone);
      assert AllDigits(isDigit, WithoutPlus(compact));
      var i :| 0 <= i < |compact| && compact[i] == c;
      assert compact[0] == '+' && i > 0 ==> compact[i] == WithoutPlus(compact)[i - 1];
    }
  }

  /** A normalised key consists of digits, so nothing is left to strip or compact. */
  lemma KeyIsPlain(isDigit: char -> bool, phone: string, key: string)
    requires DigitClass(isDigit) && Normalize(isDigit, phone) == Some(key)
    ensures |key| == 12 && key[0] != '+' && Strip(key) == key && Compact(key) == key
    ensures key[..2] == "91" && Subscriber(isDigit, key[2..])
  {
    NormalizesExactly(isDigit, phone, key);
    assert key[0] == key[..2][0] == '9' && key[1] == key[..2][1] == '1';
    forall i | 0 <= i < |key| ensures isDigit(key[i]) && !Separator(key[i]) {
      assert i >= 2 ==> key[i] == key[2..][i - 2];
    }
    CompactFixed(key);
  }

  /** A plus sign in front of characters that are no separators is all that is added. */
  lemma PlusIsPlain(key: string)
    requires key != "" && forall i :: 0 <= i < |key| ==> !Separator(key[i])
    ensures Strip("+" + key) == "+" + key && Compact("+" + key) == "+" + key && WithoutPlus("+" + key) == key
  {
    var plus := "+" + key;
    assert plus[1..] == key && plus[|plus| - 1] == key[|key| - 1];
    forall c | c in plus ensures !Separator(c) {
      var i :| 0 <= i < |plus| && plus[i] == c;
      assert i > 0 ==> plus[i] == key[i - 1];
    }
    CompactFixed(plus);
  }

  /** Normalising is idempotent, and undoes the plus sign the dialler and the agent add: the
      phone a callback call echoes resolves to the key the lead was stored under. */
  lemma EchoedPhoneIsSameKey(isDigit: char -> bool, phone: string, key: string)
    requires DigitClass(isDigit) && Normalize(isDigit, phone) == Some(key)
    ensures Normalize(isDigit, key) == Some(key)
    ensures E164(key) == "+" + key
    ensures Normalize(isDigit, E164(key)) == Some(key)
    ensures Normalize(isDigit, E164(E164(key))) == Some(key)
  {
    KeyIsPlain(isDigit, phone, key);
    NormalizesExactly(isDigit, key, key);
    forall i | 0 <= i < |key| ensures !Separator(key[i]) {
      assert key[i] in Compact(key);
    }
    PlusIsPlain(key);
    NormalizesExactly(isDigit, "+" + key, key);
  }

  /** The ten characters a phone without separators ends in. */
  function LastTen(compact: string): string
    requires |compact| >= 10
  {
    compact[|compact| - 10..]
  }

  lemma EndsAlike(compact: string)
    requires |WithoutPlus(compact)| >= 10
    ensures |compact| >= 10 && LastTen(compact) == LastTen(WithoutPlus(compact))
  {
  }

  lemma KeyEndsAs(plain: string, key: string)
    requires |key| == 12 && key[..2] == "91" && plain in {key, key[2..]}
    ensures |plain| >= 10 && key == "91" + LastTen(plain)
  {
    assert LastTen(plain) == key[2..] && key == key[..2] + key[2..];
  }

  lemma KeyEndsAsPhone(isDigit: char -> bool, phone: string, key: string)
    requires DigitClass(isDigit) && Normalize(isDigit, phone) == Some(key)
    ensures |Compact(phone)| >= 10 && key == "91" + LastTen(Compact(phone))
  {
    NormalizesExactly(isDigit, phone, key);
    KeyEndsAs(WithoutPlus(Compact(phone)), key);
    EndsAlike(Compact(phone));
  }

  /** Two accepted phones share a lead exactly when they end in the same ten digits,
      however they are punctuated and whether or not they carry the country code. */
  lemma SameKeySameSubscriber(isDigit: char -> bool, p: string, q: string)
    requires DigitClass(isDigit) && Normalize(isDigit, p).Some? && Normalize(isDigit, q).Some?
    ensures |Compact(p)| >= 10 && |Compact(q)| >= 10
    ensures Normalize(isDigit, p) == Normalize(isDigit, q) <==> LastTen(Compact(p)) == LastTen(Compact(q))
  {
    var a, b := Normalize(isDigit, p).value, Normalize(isDigit, q).value;
    KeyEndsAsPhone(isDigit, p, a);
    KeyEndsAsPhone(isDigit, q, b);
    assert a[2..] == LastTen(Compact(p)) && b[2..] == LastTen(Compact(q));
  }

  // --------------------------------------------------------------- the lead

  /** leads, by the unique normalized_phone. */
  class LeadRepository {
    var leads: map<string, nat>
    var nextLeadId: nat

    constructor ()
      ensures leads == map[] && Valid()
    {
      leads, nextLeadId := map[], 1;
    }

    ghost predicate Valid()
      reads this
    {
      && (forall p :: p in leads ==> leads[p] < nextLeadId)
      && (forall p, q :: p in leads && q in leads && leads[p] == leads[q] ==> p == q)
    }

    method UpsertByPhone(normalizedPhone: string) returns (leadId: nat)
      requires Valid()
      modifies this
      ensures Valid() && normalizedPhone in leads && leads[normalizedPhone] == leadId
      ensures leads == old(leads)[normalizedPhone := leadId]
      ensures normalizedPhone in old(leads) ==> leads == old(leads)
    {
      if normalizedPhone in leads {
        leadId := leads[normalizedPhone];
      } else {
        leadId := nextLeadId;
        leads := leads[normalizedPhone := leadId];
      }
      nextLeadId := nextLeadId + 1;
    }
  }

  class LeadService {
    const leads: LeadRepository

    constructor (leads: LeadRepository)
      ensures this.leads == leads
    {
      this.leads := leads;
    }

    /** None when normalising raises; nothing is written then. */
    method Upsert(isDigit: char -> bool, phone: string) returns (leadId: Option<nat>)
      requires leads.Valid()
      modifies leads
      ensures leads.Valid()
      ensures leadId.Some? <==> Normalize(isDigit, phone).Some?
      ensures leadId.None? ==> leads.leads == old(leads.leads)
      ensures leadId.Some? ==>
                var key := Normalize(isDigit, phone).value;
                && key in leads.leads && leads.leads[key] == leadId.value
                && leads.leads == old(leads.leads)[key := leadId.value]
                && (key in old(leads.leads) ==> leads.leads == old(leads.leads))
    {
      var key := Normalize(isDigit, phone);
      if key.None? {
        return None;
      }
      var id := leads.UpsertByPhone(key.value);
      return Some(id);
    }
  }
}
