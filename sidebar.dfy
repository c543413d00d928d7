/**
  `frontend/src/app/pre/components/SideBar.tsx`: the drop zone that loads a prompt from
  a text file. `onDrop` decides on the last dropped file; an accepted file is kept in
  `files` and read, and the read completing later is the transition `ReadCompletes`.
 */
module SideBar {
  import opened Json
  import opened Strings
  import opened Session

  const TEXT_PLAIN: string := "text/plain"
  const INVALID_TYPE: string := "Error: invalid file type"
  const MAX_UNDEFINED: string := "Error: max file size undefined."
  const MAX_INVALID: string := "Error: invalid max file size configuration."
  const INVALID_SIZE: string := "Error: invalid file size"

  /** A dropped `File`: its MIME type, its size in bytes and the text a `FileReader` reads from it. */
  datatype DroppedFile = DroppedFile(name: string, mimeType: string, size: nat, text: string)

  datatype Verdict = Rejected(message: string) | Accepted

  /**
    The checks of `onDrop`, in order: the MIME type, then whether
    `NEXT_PUBLIC_MAX_PROMPT_FILESIZE` is set, then whether it parses as an integer,
    then the size against it.
   */
  function Decide(file: DroppedFile, maxFilesize: Option<string>): (v: Verdict)
    ensures v.Accepted? <==>
      file.mimeType == TEXT_PLAIN && maxFilesize.Some? && ParseInt(maxFilesize.value).Some?
      && file.size <= ParseInt(maxFilesize.value).value
    ensures file.mimeType != TEXT_PLAIN ==> v == Rejected(INVALID_TYPE)
    ensures file.mimeType == TEXT_PLAIN && maxFilesize.None? ==> v == Rejected(MAX_UNDEFINED)
    ensures file.mimeType == TEXT_PLAIN && maxFilesize.Some? && ParseInt(maxFilesize.value).None? ==>
      v == Rejected(MAX_INVALID)
    ensures file.mimeType == TEXT_PLAIN && maxFilesize.Some? && ParseInt(maxFilesize.value).Some?
            && file.size > ParseInt(maxFilesize.value).value ==>
      v == Rejected(INVALID_SIZE)
    ensures v.Rejected? ==> v.message in {INVALID_TYPE, MAX_UNDEFINED, MAX_INVALID, INVALID_SIZE}
  {
    if file.mimeType != TEXT_PLAIN then Rejected(INVALID_TYPE)
    else if maxFilesize.None? then Rejected(MAX_UNDEFINED)
    else match ParseInt(maxFilesize.value)
      case None => Rejected(MAX_INVALID)
      case Some(maxSize) => if file.size > maxSize then Rejected(INVALID_SIZE) else Accepted
  }

  /** A file exactly as large as the configured maximum is accepted; one byte more is not. */
  lemma SizeBoundary(file: DroppedFile, n: nat)
    requires file.mimeType == TEXT_PLAIN
    ensures Decide(file, Some(Decimal(n))) == (if file.size <= n then Accepted else Rejected(INVALID_SIZE))
  {
    ParseIntDecimal(n, "");
    assert Decimal(n) + "" == Decimal(n);
  }

  /** `parseInt` stops at the first non-digit: a maximum written with a unit is read as its number. */
  lemma UnitSuffixIgnored(file: DroppedFile, n: nat, unit: string)
    requires file.mimeType == TEXT_PLAIN
    requires unit == [] || !IsDigit(unit[0])
    ensures Decide(file, Some(Decimal(n) + unit)) == Decide(file, Some(Decimal(n)))
  {
    ParseIntDecimal(n, unit);
    ParseIntDecimal(n, "");
    assert Decimal(n) + "" == Decimal(n);
  }

  /** A configured maximum without any digit is rejected as a configuration error. */
  lemma NoDigitsInvalid(file: DroppedFile, config: string)
    requires file.mimeType == TEXT_PLAIN
    requires forall i :: 0 <= i < |config| ==> !IsDigit(config[i])
    ensures Decide(file, Some(config)) == Rejected(MAX_INVALID)
  {
    NoDigitIsNaN(config);
  }

  /** A negative maximum rejects every file by size, even an empty one. */
  lemma NegativeMaxRejectsAll(file: DroppedFile, n: nat)
    requires file.mimeType == TEXT_PLAIN && n > 0
    ensures Decide(file, Some("-" + Decimal(n))) == Rejected(INVALID_SIZE)
  {
    ParseIntNegative(n, "");
    assert "-" + Decimal(n) + "" == "-" + Decimal(n);
  }

  class SideBarPanel {
    const page: Page
    var files: seq<DroppedFile>
    /** The files whose `FileReader` has not yet fired `onload`. */
    var pendingReads: seq<DroppedFile>

    /** Every read still pending belongs to a file that was accepted. */
    ghost predicate Valid()
      reads this, page
    {
      page.Valid() && multiset(pendingReads) <= multiset(files)
    }

    constructor (page: Page)
      requires page.Valid()
      ensures Valid() && this.page == page && files == [] && pendingReads == []
    {
      this.page := page;
      files := [];
      pendingReads := [];
    }

    /**
      `onDrop`: only the last file of the batch is examined. A rejected file writes its
      error message as the prompt and nothing else; an accepted file is appended to
      `files` and its read started. An empty batch throws on `lastFile.type` before
      anything is written.
     */
    method OnDrop(accFiles: seq<DroppedFile>, maxFilesize: Option<string>) returns (thrown: Option<string>)
      requires Valid()
      modifies this`files, this`pendingReads, page`userContent
      ensures Valid()
      ensures accFiles == [] ==>
        thrown == Some(ReadErrorMessage(Undefined, "type"))
        && files == old(files) && pendingReads == old(pendingReads) && page.userContent == old(page.userContent)
      ensures accFiles != [] ==> thrown.None?
      ensures accFiles != [] ==>
        match Decide(accFiles[|accFiles| - 1], maxFilesize)
        case Rejected(message) =>
          page.userContent == Str(message) && files == old(files) && pendingReads == old(pendingReads)
        case Accepted =>
          files == old(files) + [accFiles[|accFiles| - 1]]
          && pendingReads == old(pendingReads) + [accFiles[|accFiles| - 1]]
          && page.userContent == old(page.userContent)
    {
      if accFiles == [] {
        return Some(ReadErrorMessage(Undefined, "type"));
      }
      var lastFile := accFiles[|accFiles| - 1];
      match Decide(lastFile, maxFilesize) {
        case Rejected(message) =>
          page.SetUserContent(message);
        case Accepted =>
          files := files + [lastFile];
          pendingReads := pendingReads + [lastFile];
      }
      thrown := None;
    }

    /** The read of pending file `i` completes: its text becomes the prompt. Reads may finish in any order. */
    method ReadCompletes(i: nat)
      requires Valid() && i < |pendingReads|
      modifies this`pendingReads, page`userContent
      ensures Valid() && files == old(files)
      ensures page.userContent == Str(old(pendingReads)[i].text)
      ensures pendingReads == old(pendingReads)[..i] + old(pendingReads)[i + 1..]
    {
      page.SetUserContent(pendingReads[i].text);
      assert pendingReads == pendingReads[..i] + [pendingReads[i]] + pendingReads[i + 1..];
      pendingReads := pendingReads[..i] + pendingReads[i + 1..];
    }
  }
}
