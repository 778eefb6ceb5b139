/** The render signature of the workbench: a string built from the layer fields
    whose change must redraw the dataset layers. The map's dataset effect runs
    again exactly when this string (or the number of layers) changes. */
module LayerSignature {
  import opened Js
  import opened Strings
  import opened Numbers
  import opened Layers

  /** A boolean written as `1` or `0`. */
  function Flag(b: bool): string {
    if b then "1" else "0"
  }

  /** The sixteen fields of one layer that enter the signature, in order. A layer
      without information reads them from `{}`: every field is `undefined`, which
      joins as the empty string, and every flag is `0`. */
  function SignatureFields(l: Layer): (fs: seq<string>)
    ensures |fs| == 16
  {
    match l.info
    case None => ["", "0", "0", "", "", "", "", "", "", "", "", "", "0", "", "0", ""]
    case Some(info) =>
      [IntToString(info.id), Flag(info.enabled), Flag(info.enable_cog), info.layer_type,
       info.url, info.layer_name, info.timeIntervalStart, info.timeIntervalEnd,
       info.colormin, info.colormax, info.opacity, info.style, Flag(info.is_composite),
       info.numcolorbands, Flag(info.logscale), info.cog_params]
  }

  /** The signature of one layer: its fields joined with ':'. */
  function LayerPart(l: Layer): string {
    Join(":", SignatureFields(l))
  }

  function LayerParts(layers: seq<Layer>): (ps: seq<string>)
    ensures |ps| == |layers|
    ensures forall i :: 0 <= i < |layers| ==> ps[i] == LayerPart(layers[i])
  {
    seq(|layers|, i requires 0 <= i < |layers| => LayerPart(layers[i]))
  }

  /** The workbench signature: the layer signatures joined with '|'. */
  function Signature(layers: seq<Layer>): (s: string)
    ensures forall i :: 0 <= i < |layers| ==> Contains(s, LayerPart(layers[i]))
  {
    JoinContainsParts("|", LayerParts(layers));
    Join("|", LayerParts(layers))
  }

  /** Two layers whose signature fields differ in exactly one position have
      different layer signatures. */
  lemma LayerPartDistinguishes(a: Layer, b: Layer, k: nat)
    requires k < 16
    requires SignatureFields(a)[k] != SignatureFields(b)[k]
    requires SignatureFields(a) == SignatureFields(b)[k := SignatureFields(a)[k]]
    ensures LayerPart(a) != LayerPart(b)
  {
    var fa, fb := SignatureFields(a), SignatureFields(b);
    assert fb == fb[k := fb[k]];
    JoinDistinguishes(":", fb, k, fa[k], fb[k]);
  }

  /** Replacing one workbench layer by another with a different layer signature
      changes the workbench signature. */
  lemma SignatureDistinguishes(layers: seq<Layer>, i: nat, x: Layer)
    requires i < |layers|
    requires LayerPart(x) != LayerPart(layers[i])
    ensures Signature(layers[i := x]) != Signature(layers)
  {
    var ps := LayerParts(layers);
    assert LayerParts(layers[i := x]) == ps[i := LayerPart(x)];
    assert ps == ps[i := ps[i]];
    JoinDistinguishes("|", ps, i, LayerPart(x), ps[i]);
  }

  /** Two workbenches that differ only in one layer's colormin have different
      signatures, so a colour-range edit always redraws. */
  lemma ColorminChangesSignature(layers: seq<Layer>, i: nat, v: string)
    requires i < |layers| && layers[i].info.Some?
    requires v != layers[i].info.value.colormin
    ensures var l := layers[i];
            Signature(layers[i := l.(info := Some(l.info.value.(colormin := v)))]) != Signature(layers)
  {
    var l := layers[i];
    var x := l.(info := Some(l.info.value.(colormin := v)));
    ColorminField(l, v);
    LayerPartDistinguishes(x, l, 8);
    SignatureDistinguishes(layers, i, x);
  }

  /** Likewise for timeIntervalStart, which each time-slider step rewrites. */
  lemma StartTimeChangesSignature(layers: seq<Layer>, i: nat, t: string)
    requires i < |layers| && layers[i].info.Some?
    requires t != layers[i].info.value.timeIntervalStart
    ensures var l := layers[i];
            Signature(layers[i := l.(info := Some(l.info.value.(timeIntervalStart := t)))]) != Signature(layers)
  {
    var l := layers[i];
    var x := l.(info := Some(l.info.value.(timeIntervalStart := t)));
    StartTimeField(l, t);
    LayerPartDistinguishes(x, l, 6);
    SignatureDistinguishes(layers, i, x);
  }

  /** Enabling or disabling a layer changes the signature. */
  lemma EnabledChangesSignature(layers: seq<Layer>, i: nat)
    requires i < |layers| && layers[i].info.Some?
    ensures var l := layers[i];
            Signature(layers[i := l.(info := Some(l.info.value.(enabled := !l.info.value.enabled)))]) != Signature(layers)
  {
    var l := layers[i];
    var x := l.(info := Some(l.info.value.(enabled := !l.info.value.enabled)));
    EnabledField(l, !l.info.value.enabled);
    assert Flag(!l.info.value.enabled) != Flag(l.info.value.enabled);
    LayerPartDistinguishes(x, l, 1);
    SignatureDistinguishes(layers, i, x);
  }

  lemma ColorminField(l: Layer, v: string)
    requires l.info.Some?
    ensures SignatureFields(l.(info := Some(l.info.value.(colormin := v)))) == SignatureFields(l)[8 := v]
  {
  }

  lemma StartTimeField(l: Layer, t: string)
    requires l.info.Some?
    ensures SignatureFields(l.(info := Some(l.info.value.(timeIntervalStart := t)))) == SignatureFields(l)[6 := t]
  {
  }

  lemma EnabledField(l: Layer, b: bool)
    requires l.info.Some?
    ensures SignatureFields(l.(info := Some(l.info.value.(enabled := b)))) == SignatureFields(l)[1 := Flag(b)]
  {
    var x := l.(info := Some(l.info.value.(enabled := b)));
    var fx, fl := SignatureFields(x), SignatureFields(l)[1 := Flag(b)];
    assert |fx| == |fl|;
    forall j | 0 <= j < 16
      ensures fx[j] == fl[j]
    {
    }
  }

  /** The fields outside the signature never change it: zoomToLayer, the legend,
      the saved original time bounds, the time-series flag and step, the panel
      flags, the hindcast template, the SOFAR type selection, the out-of-range
      colours, and the layer's own bounding box. */
  lemma UnlistedFieldsKeepSignature(layers: seq<Layer>, i: nat, y: LayerInfo,
                                    s: real, e: real, n: real, w: real)
    requires i < |layers| && layers[i].info.Some?
    requires var x := layers[i].info.value;
             y.id == x.id && y.enabled == x.enabled && y.enable_cog == x.enable_cog
             && y.layer_type == x.layer_type && y.url == x.url && y.layer_name == x.layer_name
             && y.timeIntervalStart == x.timeIntervalStart && y.timeIntervalEnd == x.timeIntervalEnd
             && y.colormin == x.colormin && y.colormax == x.colormax && y.opacity == x.opacity
             && y.style == x.style && y.is_composite == x.is_composite
             && y.numcolorbands == x.numcolorbands && y.logscale == x.logscale
             && y.cog_params == x.cog_params
    ensures Signature(layers[i := Layer(layers[i].id, s, e, n, w, Some(y))]) == Signature(layers)
  {
    var ps := LayerParts(layers);
    assert LayerParts(layers[i := Layer(layers[i].id, s, e, n, w, Some(y))]) == ps;
  }
}
