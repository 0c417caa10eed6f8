/** The two template filters of the ticket app. */
module TemplateTags {
  import opened PyStr

  /** `filename.split('.')[-1] if '.' in filename else ''`. */
  function FileExtension(filename: string): string
  {
    if '.' in filename then
      var pieces := Split(filename, '.');
      pieces[|pieces| - 1]
    else ""
  }

  /** `value.endswith(suffix)`. */
  predicate EndswithCustom(value: string, suffix: string)
  {
    EndsWith(value, suffix)
  }

  /** A filename without a '.' has the empty extension. */
  lemma NoDotNoExtension(filename: string)
    requires '.' !in filename
    ensures FileExtension(filename) == ""
  {
  }

  /**
   * With a '.', the extension is the text after the last '.': it holds no
   * '.', and the filename ends with '.' followed by it.
   */
  lemma {:induction false} ExtensionAfterLastDot(filename: string)
    requires '.' in filename
    ensures var ext := FileExtension(filename);
      && '.' !in ext
      && ext == filename[RFind(filename, '.') + 1..]
      && EndsWith(filename, "." + ext)
  {
    var d := RFind(filename, '.');
    TailAfterLast(filename, '.');
    var ext := filename[d + 1..];
    var pieces := Split(filename, '.');
    assert pieces[|pieces| - 1] == ext;
    assert FileExtension(filename) == ext;
    assert filename[|filename| - |"." + ext|..] == filename[d..];
  }

  /** The extension of a name that ends in '.' + e, where e holds no '.', is e. */
  lemma {:induction false} ExtensionOfSuffix(prefix: string, e: string)
    requires '.' !in e
    ensures FileExtension(prefix + "." + e) == e
  {
    RFindBeforeFreeTail(prefix, '.', e);
    assert prefix + "." + e == prefix + ['.'] + e;
  }

  /** `endswith_custom(v, s)` holds exactly when `v` is some text followed by `s`. */
  lemma EndswithCustomIff(value: string, suffix: string)
    ensures EndswithCustom(value, suffix) <==> exists p :: value == p + suffix
  {
    EndsWithIff(value, suffix);
  }

  /** Every value ends with the empty suffix and with itself. */
  lemma EndswithCustomTrivial(value: string)
    ensures EndswithCustom(value, "")
    ensures EndswithCustom(value, value)
  {
  }
}
