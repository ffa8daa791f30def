/**
 * `notify_push`: whether a push is attempted, and the title it carries.
 * Delivery itself (module.notify.handle_notify) is outside the model.
 */
module Notify {
  import opened Strings
  import opened Wrappers

  const Tag: string := "[Alas]"

  /** `getattr(self.config, 'config_name', 'Alas')`. */
  function InstanceName(configName: Option<string>): string {
    configName.GetOr("Alas")
  }

  /** The title with the instance name inserted: "[Alas <name>]" replaces a leading "[Alas]", otherwise it is prefixed with a space. */
  function FormatTitle(name: string, title: string): string {
    if Tag <= title then "[Alas <" + name + ">]" + title[|Tag|..]
    else "[Alas <" + name + ">] " + title
  }

  /** Every formatted title starts with the instance header. */
  lemma FormatTitleHeader(name: string, title: string)
    ensures "[Alas <" + name + ">]" <= FormatTitle(name, title)
  {
  }

  /**
   * A title tagged "[Alas] " and the same title without the tag format
   * identically (as long as the bare title does not itself start with the tag).
   */
  lemma TaggedEqualsUntagged(name: string, title: string)
    requires !(Tag <= title)
    ensures FormatTitle(name, Tag + " " + title) == FormatTitle(name, title)
  {
    var t := Tag + " " + title;
    assert Tag <= t;
    assert t[|Tag|..] == " " + title;
  }

  /** The part after the header is the caller's title (minus the tag when it had one). */
  lemma FormatTitleKeepsBody(name: string, title: string)
    ensures var h := "[Alas <" + name + ">]";
      FormatTitle(name, title)[|h|..] == if Tag <= title then title[|Tag|..] else " " + title
  {
  }

  lemma FormatTitleExamples()
    ensures FormatTitle("Foo", "[Alas] X") == "[Alas <Foo>] X"
    ensures FormatTitle("Foo", "Y") == "[Alas <Foo>] Y"
  {
    assert Tag <= "[Alas] X";
    assert !(Tag <= "Y");
  }

  /** The gates of `notify_push`: smart scheduling, NotifyOpsiMail and a usable OnePush configuration. */
  predicate PushAllowed(smartScheduling: bool, notifyOpsiMail: bool, pushConfig: string) {
    smartScheduling && notifyOpsiMail && pushConfig != ""
    && !Contains(pushConfig, "provider: null") && !Contains(pushConfig, "provider:null")
  }

  /** A configuration that names a null provider anywhere never pushes. */
  lemma NullProviderBlocks(smartScheduling: bool, notifyOpsiMail: bool, before: string, after: string, spaced: bool)
    ensures var cfg := before + (if spaced then "provider: null" else "provider:null") + after;
      !PushAllowed(smartScheduling, notifyOpsiMail, cfg)
  {
    var p: string := if spaced then "provider: null" else "provider:null";
    var cfg := before + p + after;
    assert cfg[|before|..|before| + |p|] == p;
    MatchAtContains(cfg, p, |before|);
  }

  /** The title pushed by the call, or None when a gate stops it. */
  function PushedTitle(smartScheduling: bool, notifyOpsiMail: bool, pushConfig: string, configName: Option<string>, title: string): (r: Option<string>)
    ensures r.Some? <==> PushAllowed(smartScheduling, notifyOpsiMail, pushConfig)
    ensures r.Some? ==> "[Alas <" + InstanceName(configName) + ">]" <= r.value
  {
    if PushAllowed(smartScheduling, notifyOpsiMail, pushConfig) then
      FormatTitleHeader(InstanceName(configName), title);
      Some(FormatTitle(InstanceName(configName), title))
    else None
  }
}
