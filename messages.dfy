/**
 * The chat transcript's element type (`Message` of ChatWindow.tsx), which the
 * conversation repository also stores, and the image file a user may attach.
 */
module Messages {
  import opened Wrappers

  datatype Role = User | Assistant

  /** One turn of the transcript; `imageUrl` is a display-only preview reference. */
  datatype Message = Message(role: Role, content: string, imageUrl: Option<string>)

  /** The parts of a browser `File` the client looks at. */
  datatype ImageFile = ImageFile(mimeType: string, size: nat)

  /** Text sent in place of an empty message that carries an image. */
  const AnalyzeImagePrompt: string := "画像を分析してください"

  /** Index of the first user message (`messages.find(m => m.role === 'user')`), or -1. */
  function FirstUserIndex(ms: seq<Message>): (k: int)
    ensures -1 <= k < |ms|
    ensures k >= 0 ==> ms[k].role == User && forall j :: 0 <= j < k ==> ms[j].role != User
    ensures k == -1 <==> forall j :: 0 <= j < |ms| ==> ms[j].role != User
    decreases |ms|
  {
    if |ms| == 0 then -1
    else if ms[0].role == User then 0
    else
      var k := FirstUserIndex(ms[1..]);
      if k == -1 then -1 else k + 1
  }

  /** Index of the last user message, or -1. */
  function LastUserIndex(ms: seq<Message>): (k: int)
    ensures -1 <= k < |ms|
    ensures k >= 0 ==> ms[k].role == User && forall j :: k < j < |ms| ==> ms[j].role != User
    ensures k == -1 <==> forall j :: 0 <= j < |ms| ==> ms[j].role != User
    decreases |ms|
  {
    if |ms| == 0 then -1
    else if ms[|ms| - 1].role == User then |ms| - 1
    else LastUserIndex(ms[..|ms| - 1])
  }

  function Reverse<T>(s: seq<T>): (r: seq<T>)
    ensures |r| == |s|
    ensures forall k :: 0 <= k < |s| ==> r[k] == s[|s| - 1 - k]
  {
    if |s| == 0 then [] else Reverse(s[1..]) + [s[0]]
  }

  /**
   * The lookup regeneration performs, `[...ms].reverse().find(m => m.role === 'user')`,
   * finds the last user message: searching the reversed list from the front is
   * searching the list from the back.
   */
  lemma {:induction false} FindInReversedIsLastUser(ms: seq<Message>)
    ensures FirstUserIndex(Reverse(ms)) == -1 <==> LastUserIndex(ms) == -1
    ensures LastUserIndex(ms) >= 0 ==>
      FirstUserIndex(Reverse(ms)) == |ms| - 1 - LastUserIndex(ms)
  {
    var r := Reverse(ms);
    var f := FirstUserIndex(r);
    var l := LastUserIndex(ms);
    if l >= 0 {
      assert r[|ms| - 1 - l] == ms[l];
      forall j | 0 <= j < |ms| - 1 - l ensures r[j].role != User {
        assert r[j] == ms[|ms| - 1 - j];
      }
    } else {
      forall j | 0 <= j < |r| ensures r[j].role != User {
        assert r[j] == ms[|ms| - 1 - j];
      }
    }
  }
}
