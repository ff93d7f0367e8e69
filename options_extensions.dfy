/** Null-tolerant accessors on Options and the in-place merge of extra
    variants (Extensions/OptionsExtensions.cs). */
module OptionsExtensions {
  import opened Types

  function GetDirection(options: Options?): (d: Direction)
    reads options
  {
    if options == null then DirectionDefault else options.direction
  }

  function GetPushMode(options: Options?): (m: PushMode)
    reads options
  {
    if options == null then PushModeDefault else options.pushMode
  }

  function GetVariants(options: Options?): (vs: seq<string>)
    reads options
  {
    if options == null then [] else options.variants
  }

  /** Absent options read as the default direction, the default push mode and
      no variants. */
  lemma NullOptionsReadAsDefaults()
    ensures GetDirection(null) == DirectionDefault
    ensures GetPushMode(null) == PushModeDefault
    ensures GetVariants(null) == []
  {
  }

  /** What WithExtraVariants does to `options` and returns as `r`: with no
      extra variants, the same object, untouched; otherwise the same object with
      `extra` appended to its variants and every other field kept, or, when
      there was no object, a fresh default one holding just `extra`. */
  twostate predicate Extended(options: Options?, new r: Options?, extra: seq<string>)
    reads options, r
  {
    if extra == [] then
      r == options && (options != null ==> unchanged(options))
    else if options != null then
      r == options && options.variants == old(options.variants) + extra &&
      options.direction == old(options.direction) && options.pushMode == old(options.pushMode) &&
      options.transition == old(options.transition) && options.duration == old(options.duration)
    else
      r != null && fresh(r) && r.variants == extra && r.direction == DirectionDefault &&
      r.pushMode == PushModeDefault && r.transition == None && r.duration == None
  }

  /** Appends `extra` to the variants of `options`, creating an Options object
      when there is none; an empty `extra` leaves everything as it was. The
      object given is mutated and returned, so every holder of it sees the new
      variants. */
  method WithExtraVariants(options: Options?, extra: seq<string>) returns (r: Options?)
    modifies options
    ensures extra == [] ==> r == options && (options != null ==> unchanged(options))
    ensures extra != [] && options != null ==> r == options
    ensures extra != [] && options != null ==> options.variants == old(options.variants) + extra
    ensures extra != [] && options != null ==>
      options.direction == old(options.direction) && options.pushMode == old(options.pushMode) &&
      options.transition == old(options.transition) && options.duration == old(options.duration)
    ensures extra != [] && options == null ==> r != null && fresh(r)
    ensures extra != [] && options == null ==>
      r.variants == extra && r.direction == DirectionDefault && r.pushMode == PushModeDefault &&
      r.transition == None && r.duration == None
    ensures r != null ==> GetVariants(r) == old(GetVariants(options)) + extra
    ensures Extended(options, r, extra)
  {
    if extra == [] {
      return options;
    }
    r := options;
    if r == null {
      r := new Options();
    }
    r.variants := r.variants + extra;
  }
}
