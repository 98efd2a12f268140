/** Display formatting of the user routes: the masked history address and the account id. */
module Display {
  import opened Wrappers
  import JsString

  /**
   * The address masking of `/api/withdrawal-history` as written:
   * `substring(0, 10) + '...' + substring(-8)`. `substring` clamps `-8` to
   * 0, so the second part is the whole address.
   */
  function MaskAddressAsWritten(address: string): string {
    if address == "" then "" else JsString.Substring(address, 0, 10) + "..." + JsString.Substring(address, -8, |address|)
  }

  /** As written, the "masked" text ends with the entire address: nothing is hidden. */
  lemma MaskAsWrittenShowsWholeAddress(address: string)
    requires address != ""
    ensures var m := MaskAddressAsWritten(address);
      |m| == Min(10, |address|) + 3 + |address| && m[|m| - |address|..] == address
  {
  }

  /** A 34-character TRON address comes out as 47 characters, the full address among them. */
  lemma MaskAsWrittenExample()
    ensures var address := "TR7NHqjeKQxGTCi8q8ZY4pL8otSzgjLj6t";
      var m := MaskAddressAsWritten(address);
      |m| == 47 && m[13..] == address
  {
    MaskAsWrittenShowsWholeAddress("TR7NHqjeKQxGTCi8q8ZY4pL8otSzgjLj6t");
  }

  /** The evidently intended mask: the first 10 and the last 8 characters (`slice(-8)`). */
  function MaskAddress(address: string): string {
    if address == "" then "" else JsString.Substring(address, 0, 10) + "..." + JsString.SliceFrom(address, -8)
  }

  /** For an address of 18 or more characters the mask is 21 characters: its head, `...`, its tail. */
  lemma MaskShowsHeadAndTailOnly(address: string)
    requires |address| >= 18
    ensures var m := MaskAddress(address);
      |m| == 21 && m[..10] == address[..10] && m[10..13] == "..." && m[13..] == address[|address| - 8..]
  {
  }

  /** `MRC-` + the user id left-padded with `'0'` to at least five characters. */
  function AccountId(id: string): (a: string)
    ensures |a| == 4 + Max(5, |id|)
    ensures a[..4] == "MRC-" && a[|a| - |id|..] == id
    ensures forall k :: 4 <= k < |a| - |id| ==> a[k] == '0'
  {
    "MRC-" + JsString.PadStart(id, 5, '0')
  }
}
