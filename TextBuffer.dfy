/** The text buffer underneath every scope: a mutable character sequence that
    grows at either end. Every mutator answers the buffer itself, so that calls
    can be chained. */
module TextBuffer {

  class JsStringBuilder {
    /** The accumulated characters, in order. */
    var content: string

    /** A new buffer is empty. */
    constructor ()
      ensures content == []
    {
      content := [];
    }

    /** Adds `s` at the end. */
    method Append(s: string) returns (r: JsStringBuilder)
      modifies this
      ensures r == this
      ensures content == old(content) + s
      ensures |content| == |old(content)| + |s|
    {
      content := content + s;
      r := this;
    }

    /** Inserts `s` at the front, shifting the old content after it. */
    method Prepend(s: string) returns (r: JsStringBuilder)
      modifies this
      ensures r == this
      ensures content == s + old(content)
      ensures |content| == |old(content)| + |s|
    {
      content := s + content;
      r := this;
    }

    /** Adds exactly one line feed at the end. */
    method Nl() returns (r: JsStringBuilder)
      modifies this
      ensures r == this
      ensures content == old(content) + "\n"
      ensures |content| == |old(content)| + 1
    {
      content := content + "\n";
      r := this;
    }

    /** Reads the content; the buffer is left as it was, so reading twice
        answers the same text. */
    method ToString() returns (r: string)
      ensures r == content
    {
      r := content;
    }
  }
}
