/** Layers made from section headers (src/config.c:381-437). */
module LayerParser {
  import opened Keys
  import opened Configs
  import opened State
  import opened MacroParser

  /** What is known when a layer is added: the layers so far by name, and what parse_modset
      makes of a text. */
  datatype Known = Known(layers: seq<LayerDef>, layerIndex: string -> Option<nat>, modset: string -> Option<Mods>)

  ghost predicate KnownOk(k: Known) {
    forall s :: k.layerIndex(s).Some? ==> k.layerIndex(s).value < |k.layers|
  }

  /** A layer that binds nothing yet. */
  function BareLayer(kind: LayerType, mods: Mods, constituents: seq<nat>): LayerDef {
    LayerDef(kind, mods, seq(256, _ => Nothing), [], constituents)
  }

  /** The indices of the first n named layers; None if one does not exist. */
  function Constituents(k: Known, parts: seq<string>, n: nat): Option<seq<nat>>
    requires n <= |parts|
  {
    if n == 0 then Some([])
    else
      match (Constituents(k, parts, n - 1), k.layerIndex(parts[n - 1]))
      case (Some(front), Some(i)) => Some(front + [i])
      case _ => None
  }

  /** The layer a section header stands for; None if it is an error. */
  function LayerOf(k: Known, header: string): Option<LayerDef>
    requires Pieces(header, ':', 0) != []
  {
    var pieces := Pieces(header, ':', 0);
    var parts := Pieces(pieces[0], '+', 0);
    if '+' in pieces[0] then
      if |pieces| > 1 then None
      else
        match Constituents(k, parts, |parts|)
        case Some(c) => Some(BareLayer(Composite, {}, c))
        case None => None
    else if |pieces| == 1 then Some(BareLayer(Normal, {}, []))
    else if pieces[1] == "layout" then Some(BareLayer(LayoutType, {}, []))
    else
      match k.modset(pieces[1])
      case Some(mods) => Some(BareLayer(Normal, mods, []))
      case None => Some(BareLayer(Normal, {}, []))
  }

  /** new_layer. The limit of eight constituents, which the source checks against a counter it
      never advances, is no part of the model. */
  method NewLayer(k: Known, header: string) returns (r: Option<LayerDef>)
    requires Pieces(header, ':', 0) != []
    ensures r == LayerOf(k, header)
  {
    var pieces := Split(header, ':');
    if '+' in pieces[0] {
      if |pieces| > 1 {
        return None;
      }
      var parts := Split(pieces[0], '+');
      var constituents: seq<nat> := [];
      var i := 0;
      while i < |parts|
        invariant 0 <= i <= |parts| && Constituents(k, parts, i) == Some(constituents)
      {
        ConstituentsFail(k, parts, i + 1, |parts|);
        match k.layerIndex(parts[i]) {
          case None => return None;
          case Some(idx) => constituents := constituents + [idx];
        }
        i := i + 1;
      }
      return Some(BareLayer(Composite, {}, constituents));
    }
    if |pieces| > 1 && pieces[1] == "layout" {
      return Some(BareLayer(LayoutType, {}, []));
    }
    if |pieces| > 1 && k.modset(pieces[1]).Some? {
      return Some(BareLayer(Normal, k.modset(pieces[1]).value, []));
    }
    return Some(BareLayer(Normal, {}, []));
  }

  lemma {:induction false} ConstituentsFail(k: Known, parts: seq<string>, i: nat, n: nat)
    requires i <= n <= |parts|
    ensures Constituents(k, parts, i).None? ==> Constituents(k, parts, n).None?
    decreases n
  {
    if i != n {
      ConstituentsFail(k, parts, i, n - 1);
    }
  }

  lemma {:induction false} ConstituentsNamed(k: Known, parts: seq<string>, n: nat)
    requires n <= |parts| && Constituents(k, parts, n).Some?
    ensures |Constituents(k, parts, n).value| == n
    ensures forall j | 0 <= j < n :: k.layerIndex(parts[j]) == Some(Constituents(k, parts, n).value[j])
    decreases n
  {
    if n != 0 {
      ConstituentsNamed(k, parts, n - 1);
    }
  }

  /** What the engine asks of a layer holds of every new one: only a normal layer has
      modifiers, a composite layer, and no other, has constituents, which exist already and are
      the layers its name joins, in order; and nothing is bound yet. */
  lemma NewLayerOk(k: Known, header: string)
    requires KnownOk(k) && Pieces(header, ':', 0) != [] && LayerOf(k, header).Some?
    ensures var l := LayerOf(k, header).value;
            var name := Pieces(header, ':', 0)[0];
            var parts := Pieces(name, '+', 0);
            (l.mods != {} ==> l.kind == Normal) && (l.kind == Composite <==> '+' in name) &&
            (if l.kind == Composite then
               |l.constituents| == |parts| && forall j | 0 <= j < |parts| ::
                 k.layerIndex(parts[j]) == Some(l.constituents[j])
             else l.constituents == []) &&
            (forall j | 0 <= j < |l.constituents| :: l.constituents[j] < |k.layers|) &&
            |l.keymap| == 256 && l.chords == [] && forall c: Code :: l.keymap[c].Nothing?
  {
    var name := Pieces(header, ':', 0)[0];
    if '+' in name {
      ConstituentsNamed(k, Pieces(name, '+', 0), |Pieces(name, '+', 0)|);
    }
  }
}
