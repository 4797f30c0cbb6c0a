/**
 * The login screen (src/components/pages/OtpLogin.tsx): a mobile number typed
 * in step 1, then a four-slot one-time code checked against a fixed value in
 * step 2.
 */
module OtpLogin {
  import opened Decimal

  const OtpLength: nat := 4
  const HardcodedOtp: string := "1290"

  // ---------------------------------------------------------------------------
  // Input sanitising
  // ---------------------------------------------------------------------------

  /** `s.replace(/\D/g, "")`: the digits of `s`, in order. */
  function Sanitize(s: string): (r: string)
    ensures |r| <= |s|
    ensures AllDigits(r)
    decreases |s|
  {
    if s == [] then ""
    else (if IsDigit(s[0]) then [s[0]] else "") + Sanitize(s[1..])
  }

  /** Sanitising a concatenation sanitises each part. */
  lemma {:induction false} SanitizeAppend(a: string, b: string)
    ensures Sanitize(a + b) == Sanitize(a) + Sanitize(b)
    decreases |a|
  {
    if a == [] {
      assert a + b == b;
    } else {
      var head := if IsDigit(a[0]) then [a[0]] else "";
      assert (a + b)[0] == a[0];
      assert (a + b)[1..] == a[1..] + b;
      assert Sanitize(a + b) == head + Sanitize(a[1..] + b);
      SanitizeAppend(a[1..], b);
      assert Sanitize(a) == head + Sanitize(a[1..]);
    }
  }

  /** A string of digits passes unchanged. */
  lemma {:induction false} SanitizeKeepsDigits(s: string)
    requires AllDigits(s)
    ensures Sanitize(s) == s
    decreases |s|
  {
    if s != [] {
      SanitizeKeepsDigits(s[1..]);
      assert s == [s[0]] + s[1..];
    }
  }

  /** Sanitising twice is sanitising once. */
  lemma SanitizeIdempotent(s: string)
    ensures Sanitize(Sanitize(s)) == Sanitize(s)
  {
    SanitizeKeepsDigits(Sanitize(s));
  }

  /** A character survives exactly when it is a digit. */
  lemma {:induction false} SanitizeMembers(s: string)
    ensures forall c :: c in Sanitize(s) <==> c in s && IsDigit(c)
    decreases |s|
  {
    if s != [] {
      SanitizeMembers(s[1..]);
      assert s == [s[0]] + s[1..];
    }
  }

  /** `input.slice(-1)`: the last character, if any. */
  function LastChar(input: string): string {
    if input == [] then "" else [input[|input| - 1]]
  }

  /** The value `handleOtpChange` stores: the last character typed when it is a digit, else nothing. */
  function SlotValue(input: string): (r: string)
    ensures |r| <= 1 && AllDigits(r)
    ensures r != "" <==> input != [] && IsDigit(input[|input| - 1])
    ensures r != "" ==> r == [input[|input| - 1]]
  {
    Sanitize(LastChar(input))
  }

  // ---------------------------------------------------------------------------
  // The code
  // ---------------------------------------------------------------------------

  /** `otp.join("")`. */
  function Join(slots: seq<string>): string
    decreases |slots|
  {
    if slots == [] then "" else slots[0] + Join(slots[1..])
  }

  /** Each slot holds at most one digit. */
  predicate SlotsWellFormed(slots: seq<string>) {
    forall i :: 0 <= i < |slots| ==> |slots[i]| <= 1 && AllDigits(slots[i])
  }

  /** `otp.every((d) => d !== "")`. */
  predicate AllFilled(slots: seq<string>) {
    forall i :: 0 <= i < |slots| ==> slots[i] != ""
  }

  /** Slots that each hold one digit join to a string of digits, one per slot. */
  lemma {:induction false} JoinOfFilledSlots(slots: seq<string>)
    ensures SlotsWellFormed(slots) && AllFilled(slots) ==> |Join(slots)| == |slots| && AllDigits(Join(slots))
    decreases |slots|
  {
    if slots != [] && SlotsWellFormed(slots) && AllFilled(slots) {
      var rest := slots[1..];
      assert SlotsWellFormed(rest) && AllFilled(rest) by {
        assert forall i :: 0 <= i < |rest| ==> rest[i] == slots[i + 1];
      }
      JoinOfFilledSlots(rest);
      assert |slots[0]| == 1;
    }
  }

  /** The slots read as the expected code, one digit each. */
  const ExpectedSlots: seq<string> := ["1", "2", "9", "0"]

  /**
   * With four slots of at most one character each, the joined code is the
   * fixed code exactly when the slots hold its digits one by one; in
   * particular every slot is filled, so the check only passes when the
   * "Verify" button is enabled.
   */
  lemma CodeMatchesIffSlots(slots: seq<string>)
    requires |slots| == OtpLength && SlotsWellFormed(slots)
    ensures Join(slots) == HardcodedOtp <==> slots == ExpectedSlots
    ensures Join(slots) == HardcodedOtp ==> AllFilled(slots)
  {
    var a, b, c, d := slots[0], slots[1], slots[2], slots[3];
    var s1, s2, s3 := slots[1..], slots[2..], slots[3..];
    assert s1[1..] == s2 && s2[1..] == s3 && s3[1..] == [];
    assert Join(s3) == d + "";
    assert Join(s2) == c + Join(s3);
    assert Join(s1) == b + Join(s2);
    assert Join(slots) == a + (b + (c + (d + "")));
    assert |a| <= 1 && |b| <= 1 && |c| <= 1 && |d| <= 1;
    if Join(slots) == HardcodedOtp {
      var j := a + (b + (c + (d + "")));
      assert |j| == |a| + |b| + |c| + |d|;
      assert |a| == 1 && |b| == 1 && |c| == 1 && |d| == 1;
      assert j[0] == a[0] && j[1] == b[0] && j[2] == c[0] && j[3] == d[0];
      assert a == [a[0]] && b == [b[0]] && c == [c[0]] && d == [d[0]];
      assert slots == [a, b, c, d];
    }
  }

  // ---------------------------------------------------------------------------
  // The screen
  // ---------------------------------------------------------------------------

  class LoginScreen {
    /** 1 while the mobile number is entered, 2 while the code is. */
    var step: int
    var mobile: string
    var otp: array<string>

    ghost predicate Valid()
      reads this, otp
    {
      && otp.Length == OtpLength
      && (step == 1 || step == 2)
      && |mobile| <= 10 && AllDigits(mobile)
      && SlotsWellFormed(otp[..])
    }

    /** Step 1, no number, four empty slots. */
    constructor ()
      ensures Valid() && fresh(otp)
      ensures step == 1 && mobile == "" && otp[..] == ["", "", "", ""]
    {
      step := 1;
      mobile := "";
      otp := new string[OtpLength](_ => "");
    }

    /** "Send OTP" is enabled while the number has ten digits. */
    predicate SendOtpEnabled()
      reads this, otp
      ensures Valid() && SendOtpEnabled() ==> |mobile| == 10 && AllDigits(mobile)
    {
      |mobile| == 10
    }

    /** "Verify OTP" is enabled while every slot holds a digit. */
    predicate VerifyEnabled()
      reads this, otp
      ensures Valid() && VerifyEnabled() ==> |Join(otp[..])| == OtpLength && AllDigits(Join(otp[..]))
    {
      JoinOfFilledSlots(otp[..]);
      AllFilled(otp[..])
    }

    /** `handleMobileChange`: keep the digits typed, but only while there are at most ten of them. */
    method HandleMobileChange(input: string)
      requires Valid()
      modifies this
      ensures Valid()
      ensures mobile == if |Sanitize(input)| <= 10 then Sanitize(input) else old(mobile)
      ensures step == old(step) && otp == old(otp) && otp[..] == old(otp[..])
    {
      var value := Sanitize(input);
      if |value| <= 10 {
        mobile := value;
      }
    }

    /**
     * `handleOtpChange`: slot `index` takes the last character typed if it
     * is a digit and is emptied otherwise; the other slots keep their value.
     * `focusNext` says whether the cursor moves on to the next slot.
     */
    method HandleOtpChange(input: string, index: nat) returns (focusNext: bool)
      requires Valid() && index < OtpLength
      modifies otp
      ensures Valid()
      ensures otp[..] == old(otp[..])[index := SlotValue(input)]
      ensures focusNext <==> SlotValue(input) != "" && index < OtpLength - 1
    {
      var value := SlotValue(input);
      otp[index] := value;
      focusNext := value != "" && index < OtpLength - 1;
    }

    /** "Send OTP": moves to the code entry when enabled; a disabled button does nothing. */
    method ClickSendOtp()
      requires Valid()
      modifies this
      ensures Valid()
      ensures step == if old(SendOtpEnabled()) then 2 else old(step)
      ensures mobile == old(mobile) && otp == old(otp) && otp[..] == old(otp[..])
    {
      if SendOtpEnabled() {
        step := 2;
      }
    }

    /** `verifyOtp`: the code is accepted exactly when the slots spell out the fixed code. */
    method VerifyOtp() returns (ok: bool)
      requires Valid()
      ensures ok <==> otp[..] == ExpectedSlots
      ensures ok ==> VerifyEnabled()
    {
      CodeMatchesIffSlots(otp[..]);
      ok := Join(otp[..]) == HardcodedOtp;
    }

    /** "Change mobile number": back to step 1, keeping the number and the slots. */
    method ChangeMobile()
      requires Valid()
      modifies this
      ensures Valid()
      ensures step == 1
      ensures mobile == old(mobile) && otp == old(otp) && otp[..] == old(otp[..])
    {
      step := 1;
    }
  }
}
