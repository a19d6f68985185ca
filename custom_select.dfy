/**
 * The caption picker: a select over a fixed list of captions that also offers the
 * text being typed, or the value just chosen, as one extra option.
 */
module CustomSelect {

  class Select {
    /** The `captions` the picker was given. */
    var captions: seq<string>
    /** The options on offer. */
    var options: seq<string>

    /** The options are the captions, possibly followed by one entry that is not a caption. */
    predicate Valid()
      reads this
    {
      options == captions || (|options| == |captions| + 1 && options[..|captions|] == captions && options[|captions|] !in captions)
    }

    constructor (captions0: seq<string>)
      ensures captions == captions0 && options == captions0
      ensures Valid()
    {
      captions := captions0;
      options := captions0;
    }

    /**
     * Typing: an empty input brings back the plain captions; an input that is not a
     * caption is offered after them; an input that is a caption changes nothing.
     */
    method HandleSearch(input: string)
      requires Valid()
      modifies this
      ensures Valid() && captions == old(captions)
      ensures input == "" ==> options == captions
      ensures input != "" && input !in captions ==> options == captions + [input]
      ensures input != "" && input in captions ==> options == old(options)
    {
      if input == "" {
        options := captions;
      } else if input !in captions {
        options := captions + [input];
      }
    }

    /**
     * Choosing: a value that is not a caption is offered after the captions; the
     * value is always passed on to the form.
     */
    method HandleChange(value: string) returns (forwarded: string)
      requires Valid()
      modifies this
      ensures Valid() && captions == old(captions)
      ensures forwarded == value
      ensures value !in captions ==> options == captions + [value]
      ensures value in captions ==> options == old(options)
      ensures value in options
    {
      if value !in captions {
        options := captions + [value];
      }
      forwarded := value;
    }
  }
}
