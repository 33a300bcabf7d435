/** The static table of supported banks and the `find` lookup on it. */
module BankDirectory {
  import opened Wrappers

  /** One entry of `listSupportBanks`. */
  datatype Bank = Bank(swiftCode: string, bin: string, shortName: string, bankCode: string)

  /** `listSupportBanks`, in table order. */
  const SupportedBanks: seq<Bank> := [
    Bank("MSCBVNVX", "970422", "MB BANK", "mbbank"),
    Bank("HVBKVNVX", "970457", "Wooribank", "wooribank"),
    Bank("VCBCVNVX", "970454", "Viet Capital Bank", "banvietbank"),
    Bank("ICBVVNVX", "970415", "VietinBank", "vietinbank")
  ]

  /** Shown in place of a bank name when the BIN is not in the table. */
  const UnsupportedLabel: string := "Không hỗ trợ"

  /** `banks.find(item => item.bin === bin)`: the first entry whose BIN is `bin`. */
  function Find(banks: seq<Bank>, bin: string): (r: Option<Bank>)
    ensures r.None? <==> forall i :: 0 <= i < |banks| ==> banks[i].bin != bin
    ensures r.Some? ==> exists i :: 0 <= i < |banks| && banks[i] == r.value && banks[i].bin == bin &&
                                    forall j :: 0 <= j < i ==> banks[j].bin != bin
  {
    if |banks| == 0 then None
    else if banks[0].bin == bin then Some(banks[0])
    else
      var r := Find(banks[1..], bin);
      assert r.Some? ==> exists i :: 0 < i < |banks| && banks[i] == r.value && banks[i].bin == bin &&
                                     forall j :: 0 <= j < i ==> banks[j].bin != bin by {
        if r.Some? {
          var k :| 0 <= k < |banks| - 1 && banks[1..][k] == r.value && banks[1..][k].bin == bin &&
                   forall j :: 0 <= j < k ==> banks[1..][j].bin != bin;
          assert forall j :: 0 <= j < k + 1 ==> banks[j].bin != bin by {
            forall j | 0 <= j < k + 1 ensures banks[j].bin != bin {
              if j > 0 { assert banks[j] == banks[1..][j - 1]; }
            }
          }
        }
      }
      r
  }

  /** No two entries of `banks` share a BIN. */
  predicate DistinctBins(banks: seq<Bank>) {
    forall i, j :: 0 <= i < j < |banks| ==> banks[i].bin != banks[j].bin
  }

  /** With distinct BINs the first match is the only match: `Find` yields exactly the entry carrying the BIN. */
  lemma FindIsUnique(banks: seq<Bank>, bin: string, b: Bank)
    requires DistinctBins(banks)
    ensures Find(banks, bin) == Some(b) <==> b in banks && b.bin == bin
  {
  }

  /** The BIN-to-bank resolution used when a scanned record is displayed and submitted. */
  function Resolve(bin: string): (r: Option<Bank>)
    ensures r.Some? ==> r.value in SupportedBanks && r.value.bin == bin
    ensures r.None? <==> forall b :: b in SupportedBanks ==> b.bin != bin
  {
    Find(SupportedBanks, bin)
  }

  lemma SupportedBinsDistinct()
    ensures DistinctBins(SupportedBanks)
  {
  }

  /** The four supported BINs resolve to their own entries. */
  lemma ResolveSupported()
    ensures Resolve("970422") == Some(Bank("MSCBVNVX", "970422", "MB BANK", "mbbank"))
    ensures Resolve("970457") == Some(Bank("HVBKVNVX", "970457", "Wooribank", "wooribank"))
    ensures Resolve("970454") == Some(Bank("VCBCVNVX", "970454", "Viet Capital Bank", "banvietbank"))
    ensures Resolve("970415") == Some(Bank("ICBVVNVX", "970415", "VietinBank", "vietinbank"))
  {
  }

  /** Every other BIN is unsupported. */
  lemma ResolveUnsupported(bin: string)
    requires bin != "970422" && bin != "970457" && bin != "970454" && bin != "970415"
    ensures Resolve(bin) == None
  {
  }

  /** The bank name shown for a scanned BIN: `find(...)?.shortName || "Không hỗ trợ"`. */
  function DisplayName(bin: string): (r: string)
    ensures Resolve(bin).Some? ==> r == Resolve(bin).value.shortName
    ensures r == UnsupportedLabel <==> Resolve(bin).None?
  {
    match Resolve(bin)
    case Some(b) => if b.shortName != "" then b.shortName else UnsupportedLabel
    case None => UnsupportedLabel
  }
}
