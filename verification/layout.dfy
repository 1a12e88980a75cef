/** The fixed layout of one output line:
    service name, timestamp, level label and message joined by " | ",
    followed by a newline. */
module Layout {

  const Separator: string := " | "

  /** `needle` occurs somewhere inside `hay`. */
  predicate Contains(hay: string, needle: string) {
    exists i :: 0 <= i <= |hay| && needle <= hay[i..]
  }

  /** One formatted log line. */
  function Line(serviceName: string, stamp: string, levelLabel: string, message: string): (line: string)
    ensures |line| == |serviceName| + |stamp| + |levelLabel| + |message| + 3 * |Separator| + 1
    ensures serviceName <= line
    ensures line[|line| - 1] == '\n'
  {
    serviceName + Separator + stamp + Separator + levelLabel + Separator + message + "\n"
  }

  /** Each field of a line sits at a fixed offset determined by the widths of
      the fields before it, and the line ends with its only added newline. */
  lemma LineLayout(serviceName: string, stamp: string, levelLabel: string, message: string)
    ensures var line := Line(serviceName, stamp, levelLabel, message);
      && |line| == |serviceName| + |stamp| + |levelLabel| + |message| + 3 * |Separator| + 1
      && line[..|serviceName|] == serviceName
      && line[|serviceName|..|serviceName| + 3] == Separator
      && line[|serviceName| + 3..|serviceName| + 3 + |stamp|] == stamp
      && line[|serviceName| + 3 + |stamp|..|serviceName| + 6 + |stamp|] == Separator
      && line[|serviceName| + 6 + |stamp|..|serviceName| + 6 + |stamp| + |levelLabel|] == levelLabel
      && line[|serviceName| + 6 + |stamp| + |levelLabel|..|line| - 1 - |message|] == Separator
      && line[|line| - 1 - |message|..|line| - 1] == message
      && line[|line| - 1] == '\n'
  {
  }

  /** Both the service name and the message are substrings of every line. */
  lemma LineContainsNameAndMessage(serviceName: string, stamp: string, levelLabel: string, message: string)
    ensures Contains(Line(serviceName, stamp, levelLabel, message), serviceName)
    ensures Contains(Line(serviceName, stamp, levelLabel, message), message)
  {
    LineLayout(serviceName, stamp, levelLabel, message);
    var line := Line(serviceName, stamp, levelLabel, message);
    assert serviceName <= line[0..];
    var k := |line| - 1 - |message|;
    assert message <= line[k..];
  }

  /** Two lines with fields of the same widths are equal only when every
      field is equal: the layout loses no information. */
  lemma LineFieldsDetermined(n: string, t: string, l: string, m: string,
                             n': string, t': string, l': string, m': string)
    requires |n| == |n'| && |t| == |t'| && |l| == |l'|
    requires Line(n, t, l, m) == Line(n', t', l', m')
    ensures n == n' && t == t' && l == l' && m == m'
  {
    LineLayout(n, t, l, m);
    LineLayout(n', t', l', m');
  }
}
