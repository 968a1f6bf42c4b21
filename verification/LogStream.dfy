/** The fixed-size buffer a log line is written into: what does not fit is cut off. */
module LogStreams {

  const LARGE_BUFFER := 4 * 1024 * 1024

  /** The contents of a buffer of `size` bytes after `text` is written to it. */
  function Fill<T>(contents: seq<T>, text: seq<T>, size: nat): (r: seq<T>)
    requires |contents| <= size
    ensures contents <= r && |r| <= size
    ensures |contents| + |text| <= size <==> r == contents + text
    ensures |contents| + |text| > size ==> |r| == size && r <= contents + text
  {
    contents + text[..if |text| <= size - |contents| then |text| else size - |contents|]
  }

  class LogStream {
    const data: array<char>
    var cur: nat

    ghost predicate Valid()
      reads this
    {
      cur <= data.Length
    }

    ghost function Contents(): (s: string)
      reads this, data
      requires Valid()
    {
      data[..cur]
    }

    constructor (size: nat)
      ensures Valid() && Contents() == "" && data.Length == size && fresh(data)
    {
      data := new char[size](_ => '\0');
      cur := 0;
    }

    function Avail(): (r: nat)
      reads this
      requires Valid()
    {
      data.Length - cur
    }

    method Append(text: string)
      requires Valid()
      modifies this, data
      ensures Valid() && Contents() == Fill(old(Contents()), text, data.Length)
      ensures Contents() <= old(Contents()) + text
      ensures |Contents()| == if |old(Contents())| + |text| <= data.Length then |old(Contents())| + |text| else data.Length
    {
      var len := if |text| <= Avail() then |text| else Avail();
      ghost var was := Contents();
      forall i | 0 <= i < len {
        data[cur + i] := text[i];
      }
      assert data[..cur] == was;
      assert data[cur..cur + len] == text[..len];
      cur := cur + len;
      assert Contents() == was + text[..len];
    }

    method Clear()
      requires Valid()
      modifies this
      ensures Valid() && Contents() == ""
    {
      cur := 0;
    }
  }
}
